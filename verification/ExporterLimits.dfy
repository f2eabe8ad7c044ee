/**
Size limits: every batch, and every piece that bisection makes of one, is a request that
stays within the configured bytes and records.
*/
module ExporterLimits {
  import opened Records
  import opened Wrappers
  import opened Exporter
  import opened ExporterShape
  import Protobuf
  import Sizing

  /** The configuration's size test is the predictor of `sizer` against `maxBytes`. */
  ghost predicate SizedBy(cfg: Config, sizer: Sizing.Sizer, maxBytes: nat) {
    forall sizes: seq<nat> :: cfg.fits(sizes) <==> sizer.EncodedLen(Sizing.RecordsLen(sizes)) <= maxBytes
  }

  /** Pieces of what fits fit. */
  ghost predicate Divisible(cfg: Config) {
    forall sizes: seq<nat>, i: nat, j: nat :: i <= j <= |sizes| && cfg.fits(sizes) ==> cfg.fits(sizes[i..j])
  }

  lemma SizedIsDivisible(cfg: Config, sizer: Sizing.Sizer, maxBytes: nat)
    requires SizedBy(cfg, sizer, maxBytes)
    ensures Divisible(cfg)
  {
    forall sizes: seq<nat>, i: nat, j: nat | i <= j <= |sizes| && cfg.fits(sizes)
      ensures cfg.fits(sizes[i..j])
    {
      Sizing.PieceFits(sizer, sizes, i, j, maxBytes);
    }
  }

  // ---------------------------------------------------------------- invariant

  /** A batch that may still grow. */
  predicate Open(cfg: Config, batch: seq<QueuedLog>) {
    cfg.Fits(batch) && |batch| < cfg.maxBatchRecords
  }

  /** A batch that may be sent; a first record is taken whatever the record limit. */
  predicate Sendable(cfg: Config, batch: seq<QueuedLog>) {
    cfg.Fits(batch) && (|batch| <= 1 || |batch| <= cfg.maxBatchRecords)
  }

  predicate SiteFits(cfg: Config, site: Site) {
    site.InBatch? || site.InBatchWoken? ==> Open(cfg, site.batch)
  }

  predicate StackFits(cfg: Config, stack: seq<seq<QueuedLog>>) {
    forall i :: 0 <= i < |stack| ==> Sendable(cfg, stack[i])
  }

  predicate PcFits(cfg: Config, pc: WorkerPc) {
    match pc
    case Refresh(site, _) => SiteFits(cfg, site)
    case Input(at) => at.Top? || at.Choose? || SiteFits(cfg, at.site)
    case Assemble(at) => (match at case First(_) => true case Fill(batch) => Sendable(cfg, batch)
                                   case Next(batch, _) => Open(cfg, batch) case Export(batch) => Sendable(cfg, batch))
    case Wait(at) => at.WaitBatch? ==> Open(cfg, at.batch)
    case Transmit(stack, at) => StackFits(cfg, stack) && (!at.NextSegment? ==> Sendable(cfg, at.records))
    case Settle(_, resume, _) => (match resume case ToTop => true case ToFill(batch) => Open(cfg, batch)
                                               case ToNextSegment(stack) => StackFits(cfg, stack))
    case Fail(stack, _) => StackFits(cfg, stack)
    case Aborted(_) => true
  }

  // ---------------------------------------------------------------- preservation

  lemma SplitFits(cfg: Config, records: seq<QueuedLog>)
    requires Divisible(cfg) && Sendable(cfg, records)
    ensures StackFits(cfg, Split(records))
  {
    var half := |records| / 2;
    assert EncodedSizes(records[half..]) == EncodedSizes(records)[half..|records|];
    assert EncodedSizes(records[..half]) == EncodedSizes(records)[0..half];
  }

  lemma BatchKeepsFit(s: State, at: BatchPc)
    requires s.w.pc == Assemble(at) && PcFits(s.cfg, s.w.pc)
    ensures PcFits(s.cfg, BatchStep(s, at).w.pc)
  {
    match at
    case First(_) =>
    case Fill(_) =>
    case Next(_, _) =>
    case Export(_) =>
  }

  lemma InputKeepsFit(s: State, at: InputPc)
    requires s.w.pc == Input(at) && PcFits(s.cfg, s.w.pc)
    ensures PcFits(s.cfg, InputStep(s, at).w.pc)
  {
    match at
    case Top =>
    case Choose =>
    case Poll(_) =>
    case Pop(AtTop) =>
    case Pop(InReceive) =>
    case Pop(InDrain) =>
    case Pop(InLastPoll) =>
    case Pop(InBatch(_)) =>
    case Pop(InBatchWoken(_)) =>
    case ReleaseRecord(_, _) =>
    case ReleaseBytes(InLastPoll, _) =>
    case ReleaseBytes(InBatch(_), _) =>
    case ReleaseBytes(InBatchWoken(_), _) =>
    case ReleaseBytes(_, _) =>
  }

  lemma TransmitKeepsFit(s: State, stack: seq<seq<QueuedLog>>, at: TransmitPc, m: WorkerMove)
    requires Divisible(s.cfg) && s.w.pc == Transmit(stack, at) && PcFits(s.cfg, s.w.pc)
        && TransmitStep(s, stack, at, m).Some?
    ensures PcFits(s.cfg, TransmitStep(s, stack, at, m).value.w.pc)
  {
    match at
    case NextSegment =>
    case Send(records) =>
      SplitFits(s.cfg, records);
      { match m.outcome case Accepted(_) => case InvalidPayload => case Retryable => case Permanent => }
    case Backoff(_) =>
  }

  lemma WaitKeepsFit(s: State, at: WaitPc, m: WorkerMove)
    requires s.w.pc == Wait(at) && PcFits(s.cfg, s.w.pc) && WaitStep(s, at, m).Some?
    ensures PcFits(s.cfg, WaitStep(s, at, m).value.w.pc)
  {
    match at
    case WaitReceive =>
    case WaitBatch(_) =>
    case WaitFence =>
    case CheckFence =>
    case StopStatus =>
    case StopNotify =>
    case Drained =>
  }

  lemma SettleKeepsFit(s: State, logs: seq<QueuedLog>, resume: Resume, at: SettlePc)
    requires s.w.pc == Settle(logs, resume, at) && PcFits(s.cfg, s.w.pc)
    ensures PcFits(s.cfg, SettleStep(s, logs, resume, at).w.pc)
  {
    match at
    case Complete => { match resume case ToTop => case ToFill(_) => case ToNextSegment(_) => }
    case Publish =>
    case Progress =>
  }

  lemma RefreshKeepsFit(s: State, site: Site, at: RefreshPc)
    requires s.w.pc == Refresh(site, at) && PcFits(s.cfg, s.w.pc) && RefreshStep(s, site, at).Some?
    ensures PcFits(s.cfg, RefreshStep(s, site, at).value.w.pc)
  {
    match at
    case Retiring(_) =>
    case RetireCheck(_) =>
    case Taking(_, _, _) =>
  }

  lemma FailKeepsFit(s: State, stack: seq<seq<QueuedLog>>, at: FailPc)
    requires s.w.pc == Fail(stack, at) && PcFits(s.cfg, s.w.pc) && FailStep(s, stack, at).Some?
    ensures PcFits(s.cfg, FailStep(s, stack, at).value.w.pc)
  {
    match at
    case Terminal =>
    case TermShutdown =>
    case TermFence =>
    case TermWait =>
    case TermClear =>
    case TermStatus(_) =>
    case TermNotify(_) =>
    case Discarded(_) =>
  }

  lemma WorkerKeepsFit(s: State, m: WorkerMove)
    requires Divisible(s.cfg) && PcFits(s.cfg, s.w.pc) && WorkerStep(s, m).Some?
    ensures PcFits(s.cfg, WorkerStep(s, m).value.w.pc)
  {
    match s.w.pc
    case Refresh(site, at) => RefreshKeepsFit(s, site, at);
    case Input(at) => InputKeepsFit(s, at);
    case Assemble(at) => BatchKeepsFit(s, at);
    case Wait(at) => WaitKeepsFit(s, at, m);
    case Transmit(stack, at) => TransmitKeepsFit(s, stack, at, m);
    case Settle(logs, resume, at) => SettleKeepsFit(s, logs, resume, at);
    case Fail(stack, at) => FailKeepsFit(s, stack, at);
  }

  lemma StepKeepsFit(s: State, a: Action)
    requires Divisible(s.cfg) && PcFits(s.cfg, s.w.pc) && Step(s, a).Some?
    ensures PcFits(s.cfg, Step(s, a).value.w.pc)
  {
    match a
    case ByProducer(t, m) => ProducerKeepsWorker(s, t, m);
    case ByWorker(m) => WorkerKeepsFit(s, m);
    case ByFlusher(f, m) => FlushFrame(s, f, m);
    case ByHandle(m) => HandleFrame(s, m);
  }

  /** No step changes the configuration. */
  lemma StepKeepsConfig(s: State, a: Action)
    requires Step(s, a).Some?
    ensures Step(s, a).value.cfg == s.cfg
  {
    match a
    case ByProducer(t, m) => ProducerKeepsConfig(s, t, m);
    case ByWorker(m) => WorkerFrame(s, m);
    case ByFlusher(f, m) => FlushFrame(s, f, m);
    case ByHandle(m) => HandleFrame(s, m);
  }

  lemma ProducerKeepsConfig(s: State, t: nat, m: ProducerMove)
    requires ProducerStep(s, t, m).Some?
    ensures ProducerStep(s, t, m).value.cfg == s.cfg
  {
    match s.producers[t].pc
    case Outside =>
    case Loaded =>
    case Resolving(_) =>
    case ClaimBytes(_, _) =>
    case UndoBytes(_, _) =>
    case ClaimRecord(_, _) =>
    case UndoRecord(_, _) =>
    case ReturnBytes(_, _) =>
    case Ticketing(_, _) =>
    case Pushing(_) =>
    case Notifying =>
    case Leaving =>
    case Closing =>
    case Gone =>
  }

  // ---------------------------------------------------------------- the bytes on the wire

  /** `r` is the request built from `records`: one encoded record per queued record. */
  predicate Carries(r: Protobuf.Request, records: seq<QueuedLog>) {
    Sizing.Sizes(r.records) == EncodedSizes(records)
  }

  /** What is about to be sent encodes to at most the configured limit. */
  lemma SentRequestFits(s: State, r: Protobuf.Request, maxBytes: nat)
    requires SizedBy(s.cfg, Sizing.NewSizer(|r.resource|, |r.scope|), maxBytes) && maxBytes < Sizing.USIZE_MAX
    requires s.w.pc.Transmit? && s.w.pc.transmit.Send? && PcFits(s.cfg, s.w.pc) && Carries(r, s.w.pc.transmit.records)
    ensures |Protobuf.EncodeRequest(r)| <= maxBytes
    ensures |r.records| <= 1 || |r.records| <= s.cfg.maxBatchRecords
  {
    Sizing.PredictionIsExact(r);
    assert s.cfg.fits(EncodedSizes(s.w.pc.transmit.records));
    assert |Sizing.Sizes(r.records)| == |s.w.pc.transmit.records|;
  }
}
