/** What a flush caller is told, and when: each report names what the caller has read. */
module ExporterReports {
  import opened Records
  import opened Wrappers
  import opened Exporter
  import opened ExporterFlush
  import opened ExporterRuns

  function Pc(s: State, f: nat): FlusherPc
    requires f < |s.flushers|
  {
    s.flushers[f]
  }

  /** The report that is right for what the caller has seen: its target, the completed ticket and
      the status that it read, whether its deadline passed. */
  predicate Justified(before: FlusherPc, report: FlusherPc, s: State, m: FlushMove)
    requires report.FlushDone?
  {
    match report.status
    case Flushed => before.FlushLoad? && report.completed == s.sh.completedTicket >= before.target
    case Failed =>
      before.FlushLoadStatus? && s.sh.status == TerminalFailure && report.completed == before.completed < before.target
    case WorkerStopped =>
      before.FlushLoadStatus? && s.sh.status == Stopped && report.completed == before.completed < before.target
    case TimedOut => before.FlushWait? && m.FlushTimeout? && report.completed == s.sh.completedTicket
  }

  /** Every report is justified by what was read in the step that makes it, and carries the ticket
      that was the last one when the call began. */
  lemma ReportIsJustified(cfg: Config, schedule: seq<Action>, f: nat, m: FlushMove)
    requires Reach(cfg, schedule).Some? && f < |Reach(cfg, schedule).value.flushers|
    requires Step(Reach(cfg, schedule).value, ByFlusher(f, m)).Some?
    ensures var s := Reach(cfg, schedule).value; var s' := Step(s, ByFlusher(f, m)).value;
      && f < |s'.flushers|
      && (Pc(s', f).FlushDone? ==>
            Justified(Pc(s, f), Pc(s', f), s, m) && TargetOf(Pc(s', f)) == TargetOf(Pc(s, f)))
      && (Pc(s, f).FlushIdle? ==> TargetOf(Pc(s', f)) == Some(s.sh.nextTicket))
  {
    ReachKeepsInv(cfg, schedule);
    var s := Reach(cfg, schedule).value;
    assert FlusherSound(s.flushers[f], s.sh.nextTicket, s.sh.completedTicket, AboutToWake(s.w.pc));
    match s.flushers[f]
    case FlushIdle =>
    case FlushWake(_) =>
    case FlushEnable(_) =>
    case FlushLoad(_, _) =>
    case FlushLoadStatus(_, _, _) =>
    case FlushWait(_, _) =>
    case FlushDone(_, _, _) =>
  }

  /** A caller that finds its target completed returns at once; one that reads a final status
      gets exactly the report that names it, and only otherwise goes to sleep. */
  lemma ReadingDecides(s: State, f: nat, m: FlushMove)
    requires f < |s.flushers| && Step(s, ByFlusher(f, m)).Some?
    ensures var before, after := s.flushers[f], Step(s, ByFlusher(f, m)).value.flushers[f];
      && (before.FlushLoad? ==>
            (after == FlushDone(Flushed, before.target, s.sh.completedTicket) <==>
              s.sh.completedTicket >= before.target))
      && (before.FlushLoadStatus? ==>
            && (s.sh.status == TerminalFailure <==> after == FlushDone(Failed, before.target, before.completed))
            && (s.sh.status == Stopped <==> after == FlushDone(WorkerStopped, before.target, before.completed))
            && (s.sh.status == Running || s.sh.status == BackingOff || s.sh.status == ShuttingDown <==>
                  after == FlushWait(before.target, before.notified)))
  {
    match s.flushers[f]
    case FlushIdle =>
    case FlushWake(_) =>
    case FlushEnable(_) =>
    case FlushLoad(_, _) =>
    case FlushLoadStatus(_, _, _) =>
    case FlushWait(_, _) =>
    case FlushDone(_, _, _) =>
  }

  /** A caller registers before it looks: what it reads, it reads as an enabled waiter, after having
      stored the permit that makes a waiting worker export what it has. */
  lemma CallWakesThenWaits(s: State, f: nat, m: FlushMove)
    requires f < |s.flushers| && Step(s, ByFlusher(f, m)).Some?
    ensures var before, s' := s.flushers[f], Step(s, ByFlusher(f, m)).value;
      && (before.FlushWake? ==> s'.sh.flushPermit && s'.flushers[f] == FlushEnable(before.target))
      && (before.FlushEnable? ==> s'.flushers[f] == FlushLoad(before.target, false))
      && (before.FlushWait? && !m.FlushTimeout? ==> before.notified && s'.flushers[f] == FlushEnable(before.target))
      && (s'.sh.flushPermit && !s.sh.flushPermit ==> before.FlushWake?)
      && s'.sh == s.sh.(flushPermit := s'.sh.flushPermit)
  {
    match s.flushers[f]
    case FlushIdle =>
    case FlushWake(_) =>
    case FlushEnable(_) =>
    case FlushLoad(_, _) =>
    case FlushLoadStatus(_, _, _) =>
    case FlushWait(_, _) =>
    case FlushDone(_, _, _) =>
  }

  /** A caller that has not returned waits for nothing, unless it sleeps: then for a notification
      or its deadline. */
  lemma CallerMovesIff(s: State, f: nat, m: FlushMove)
    requires f < |s.flushers|
    ensures Step(s, ByFlusher(f, m)).Some? <==>
      !s.flushers[f].FlushDone? && (s.flushers[f].FlushWait? ==> m.FlushTimeout? || s.flushers[f].notified)
  {
    match s.flushers[f]
    case FlushIdle =>
    case FlushWake(_) =>
    case FlushEnable(_) =>
    case FlushLoad(_, _) =>
    case FlushLoadStatus(_, _, _) =>
    case FlushWait(_, _) =>
    case FlushDone(_, _, _) =>
  }
}
