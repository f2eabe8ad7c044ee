/**
The fence falls. Once the handle has let go of the sink no thread can enter the callback, and
each thread inside has only so many steps left; so under fair threads the fence signals, and a
shutdown completes without any assumption about it.
*/
module ExporterQuiescence {
  import opened Records
  import opened Wrappers
  import opened Exporter
  import opened ExporterShape
  import opened ExporterWake
  import opened ExporterStop
  import opened ExporterRuns
  import opened ExporterProgress
  import opened ExporterReset

  // ---------------------------------------------------------------- the way out of the callback

  /** An upper bound on the steps that a thread still takes inside the callback. */
  function StepsLeft(pc: ProducerPc): nat {
    match pc
    case Outside => 0
    case Loaded => 20
    case Resolving(_) => 19
    case ClaimBytes(_, queue) => if queue.Normal? then 18 else 14
    case UndoBytes(_, queue) => if queue.Normal? then 17 else 13
    case ClaimRecord(_, queue) => if queue.Normal? then 17 else 13
    case UndoRecord(_, queue) => if queue.Normal? then 16 else 12
    case ReturnBytes(_, queue) => if queue.Normal? then 15 else 11
    case Ticketing(_, _) => 10
    case Pushing(_) => 9
    case Notifying => 8
    case Leaving => 7
    case Closing => 0
    case Gone => 0
  }

  function Steps(): ProducerPc -> nat {
    (pc: ProducerPc) => StepsLeft(pc)
  }

  ghost predicate LetGo(s: State) {
    !s.sh.slot && !s.sh.handle
  }

  predicate NobodyInside(s: State) {
    forall t :: 0 <= t < |s.producers| ==> !s.producers[t].pc.HoldsCallback()
  }

  /** A step of a thread inside the callback. */
  predicate StepsInside(s: State, a: Action) {
    a.ByProducer? && a.t < |s.producers| && s.producers[a.t].pc.HoldsCallback()
  }

  lemma ThreadMovesAlone(s: State, t: nat, m: ProducerMove)
    requires LetGo(s) && ProducerStep(s, t, m).Some?
    ensures var s' := ProducerStep(s, t, m).value;
      LetGo(s') && |s'.producers| == |s.producers| && s'.producers == s.producers[t := s'.producers[t]]
  {
    match s.producers[t].pc
    case Outside =>
    case Loaded =>
    case Resolving(_) =>
    case ClaimBytes(_, _) =>
    case UndoBytes(_, _) =>
    case ClaimRecord(_, _) =>
    case UndoRecord(_, _) =>
    case ReturnBytes(_, _) =>
    case Ticketing(_, _) =>
    case Pushing(_) =>
    case Notifying =>
    case Leaving =>
    case Closing =>
    case Gone =>
  }

  lemma ThreadGetsCloser(s: State, t: nat, m: ProducerMove)
    requires LetGo(s) && ProducerStep(s, t, m).Some? && |ProducerStep(s, t, m).value.producers| == |s.producers|
    ensures var pc, pc' := s.producers[t].pc, ProducerStep(s, t, m).value.producers[t].pc;
      if pc.HoldsCallback() then StepsLeft(pc') < StepsLeft(pc)
      else StepsLeft(pc') == StepsLeft(pc) && !pc'.HoldsCallback()
  {
    match s.producers[t].pc
    case Outside =>
    case Loaded =>
    case Resolving(_) =>
    case ClaimBytes(_, _) =>
    case UndoBytes(_, _) =>
    case ClaimRecord(_, _) =>
    case UndoRecord(_, _) =>
    case ReturnBytes(_, _) =>
    case Ticketing(_, _) =>
    case Pushing(_) =>
    case Notifying =>
    case Leaving =>
    case Closing =>
    case Gone =>
  }

  lemma OthersLeaveThreads(s: State, a: Action)
    requires LetGo(s) && !a.ByProducer? && Step(s, a).Some?
    ensures LetGo(Step(s, a).value) && Step(s, a).value.producers == s.producers
  {
    match a
    case ByWorker(m) => WorkerFrame(s, m);
    case ByFlusher(f, m) => FlushFrame(s, f, m);
    case ByHandle(m) => HandleFrame(s, m);
      { match m case StopAcceptance => StopFrame(s); case ClearSlot => case ReleaseHandle => case FenceStore =>
                case FenceNotify => case Abort => case ResetStep => }
  }

  /** Each step inside brings the threads closer to the way out, and no other step takes them further from it. */
  lemma StepAdvances(s: State, a: Action)
    requires LetGo(s) && Step(s, a).Some?
    ensures var s' := Step(s, a).value;
      && LetGo(s')
      && (if StepsInside(s, a) then Total(s'.producers, Steps()) < Total(s.producers, Steps())
          else Total(s'.producers, Steps()) == Total(s.producers, Steps()))
  {
    if a.ByProducer? {
      var s' := Step(s, a).value;
      ThreadMovesAlone(s, a.t, a.pm);
      ThreadGetsCloser(s, a.t, a.pm);
      TotalChanges(s.producers, a.t, s'.producers[a.t], Steps());
    } else {
      OthersLeaveThreads(s, a);
    }
  }

  // ---------------------------------------------------------------- infinite runs

  function InsideAt(run: nat -> State, acts: nat -> Action): nat -> bool {
    (n: nat) => StepsInside(run(n), acts(n))
  }

  function OutsideAt(run: nat -> State): nat -> bool {
    (n: nat) => NobodyInside(run(n))
  }

  function WayOut(run: nat -> State): nat -> Rank {
    (n: nat) => Rank(0, 0, 0, Total(run(n).producers, Steps()), 0, 0)
  }

  /** As long as there are threads inside the callback, one of them goes on sooner or later. */
  ghost predicate ThreadsFair(run: nat -> State, acts: nat -> Action) {
    forall n: nat :: NobodyInside(run(n)) || exists k: nat :: WorksLater(InsideAt(run, acts), n, k)
  }

  /** The step by which the callback's destructor goes on. */
  predicate Destroys(s: State, a: Action) {
    (s.sh.fence.Dropping? && a == ByHandle(FenceStore)) || (s.sh.fence.Closed? && a == ByHandle(FenceNotify))
  }

  function DestroysAt(run: nat -> State, acts: nat -> Action): nat -> bool {
    (n: nat) => Destroys(run(n), acts(n))
  }

  function SignalledAt(run: nat -> State): nat -> bool {
    (n: nat) => run(n).sh.fence.Signalled?
  }

  function FenceLeft(run: nat -> State): nat -> Rank {
    (n: nat) => Rank(0, 0, 0, if run(n).sh.fence.Dropping? then 2 else if run(n).sh.fence.Closed? then 1 else 0, 0, 0)
  }

  /** A destructor that has begun goes on. */
  ghost predicate DestructorFair(run: nat -> State, acts: nat -> Action) {
    forall n: nat :: run(n).sh.fence.Alive? || run(n).sh.fence.Signalled? ||
      exists k: nat :: WorksLater(DestroysAt(run, acts), n, k)
  }

  lemma {:induction false} StaysLetGo(run: nat -> State, acts: nat -> Action, from: nat, n: nat)
    requires (forall i: nat :: StepsAt(run, acts, i)) && LetGo(run(from)) && from <= n
    ensures LetGo(run(n))
  {
    if n > from {
      StaysLetGo(run, acts, from, n - 1);
      assert StepsAt(run, acts, n - 1);
      StepAdvances(run(n - 1), acts(n - 1));
    }
  }

  /** Every thread gets out. */
  lemma ThreadsGetOut(run: nat -> State, acts: nat -> Action, from: nat) returns (out: nat)
    requires (forall i: nat :: StepsAt(run, acts, i)) && LetGo(run(from)) && ThreadsFair(run, acts)
    ensures out >= from && NobodyInside(run(out)) && LetGo(run(out))
  {
    forall n: nat | n >= from
      ensures Descends(WayOut(run), OutsideAt(run), InsideAt(run, acts), n)
    {
      StaysLetGo(run, acts, from, n);
      assert StepsAt(run, acts, n);
      StepAdvances(run(n), acts(n));
    }
    out := FairDescent(WayOut(run), OutsideAt(run), InsideAt(run, acts), from);
    StaysLetGo(run, acts, from, out);
  }

  lemma FenceStepsDown(s: State, a: Action)
    requires FenceExact(s) && !s.sh.fence.Alive? && Step(s, a).Some?
    ensures var fence, fence' := s.sh.fence, Step(s, a).value.sh.fence;
      if Destroys(s, a) then fence' == (if fence.Dropping? then Closed else Signalled) else fence' == fence
  {
    match a
    case ByProducer(t, m) => ProducerLeavesFence(s, t, m);
    case ByWorker(m) => WorkerFrame(s, m);
    case ByFlusher(f, m) => FlushFrame(s, f, m);
    case ByHandle(m) => { match m case StopAcceptance => StopFrame(s); case ClearSlot => case ReleaseHandle =>
                                  case FenceStore => case FenceNotify => case Abort => case ResetStep => }
  }

  lemma ProducerLeavesFence(s: State, t: nat, m: ProducerMove)
    requires FenceExact(s) && !s.sh.fence.Alive? && ProducerStep(s, t, m).Some?
    ensures ProducerStep(s, t, m).value.sh.fence == s.sh.fence
  {
    assert !s.producers[t].pc.HoldsCallback();
    match s.producers[t].pc
    case Outside =>
    case Closing =>
    case Gone =>
  }

  lemma NextStaysDown(cfg: Config, run: nat -> State, acts: nat -> Action, n: nat)
    requires Execution(cfg, run, acts) && !run(n).sh.fence.Alive?
    ensures !run(n + 1).sh.fence.Alive?
  {
    InvAlong(cfg, run, acts, n);
    assert StepsAt(run, acts, n);
    FenceStepsDown(run(n), acts(n));
  }

  lemma StaysDown(cfg: Config, run: nat -> State, acts: nat -> Action, from: nat, n: nat)
    requires Execution(cfg, run, acts) && !run(from).sh.fence.Alive? && from <= n
    ensures !run(n).sh.fence.Alive?
  {
    forall i: nat | i >= from && !run(i).sh.fence.Alive?
      ensures !run(i + 1).sh.fence.Alive?
    {
      NextStaysDown(cfg, run, acts, i);
    }
    FromThenOn((i: nat) => !run(i).sh.fence.Alive?, from, n);
  }

  /** The fence signals: `producers_closed` is set, and the worker is notified. */
  lemma FenceSignals(cfg: Config, run: nat -> State, acts: nat -> Action, from: nat) returns (signalled: nat)
    requires Execution(cfg, run, acts) && LetGo(run(from)) && ThreadsFair(run, acts) && DestructorFair(run, acts)
    ensures signalled >= from && run(signalled).sh.fence.Signalled?
  {
    var out := ThreadsGetOut(run, acts, from);
    InvAlong(cfg, run, acts, out);
    assert Unreferenced(run(out));
    forall n: nat | n >= out
      ensures Descends(FenceLeft(run), SignalledAt(run), DestroysAt(run, acts), n)
      ensures !run(n).sh.fence.Alive?
    {
      StaysDown(cfg, run, acts, out, n);
      InvAlong(cfg, run, acts, n);
      assert StepsAt(run, acts, n);
      FenceStepsDown(run(n), acts(n));
    }
    signalled := FairDescent(FenceLeft(run), SignalledAt(run), DestroysAt(run, acts), out);
  }

  lemma {:induction false} StaysSignalled(cfg: Config, run: nat -> State, acts: nat -> Action, from: nat, n: nat)
    requires Execution(cfg, run, acts) && run(from).sh.fence.Signalled? && from <= n
    ensures run(n).sh.fence.Signalled?
  {
    if n > from {
      StaysSignalled(cfg, run, acts, from, n - 1);
      InvAlong(cfg, run, acts, n - 1);
      assert StepsAt(run, acts, n - 1);
      StepKeepsSignal(run(n - 1), acts(n - 1));
    }
  }

  lemma {:induction false} StaysDelivered(cfg: Config, run: nat -> State, acts: nat -> Action, from: nat, n: nat)
    requires Execution(cfg, run, acts) && Delivered(run(from)) && from <= n
    ensures Delivered(run(n))
  {
    if n > from {
      StaysDelivered(cfg, run, acts, from, n - 1);
      InvAlong(cfg, run, acts, n - 1);
      assert StepsAt(run, acts, n - 1);
      StepKeepsStop(run(n - 1), acts(n - 1));
    }
  }

  /** Shutdown completes. After `stop_acceptance` and the release of the sink, if threads,
      destructor and worker are scheduled fairly and the collector sooner or later asks for no
      further retry, the worker returns. From some step on, by which the fence has signalled, a
      clean return has lost nothing unless the last look at the lanes had begun by that step. */
  lemma ShutdownCompletesUnaided(cfg: Config, run: nat -> State, acts: nat -> Action, stopped: nat, calm: nat)
    requires Execution(cfg, run, acts) && Settled(run, acts, calm)
    requires Fair(run, acts) && ThreadsFair(run, acts) && DestructorFair(run, acts)
    requires !run(stopped).sh.accepting && run(stopped).sh.stop.NotStopping? && LetGo(run(stopped))
    ensures exists settled: nat, end: nat ::
      stopped <= settled <= end && run(settled).sh.fence.Signalled?
      && Finished(run(end)) && NothingLostSince(run(settled), run(end))
  {
    InvAlong(cfg, run, acts, stopped);
    var signalled := FenceSignals(cfg, run, acts, stopped);
    var settled := if signalled >= calm then signalled else calm;
    StaysSignalled(cfg, run, acts, signalled, settled);
    StaysDelivered(cfg, run, acts, stopped, settled);
    DeliveredCompletes(cfg, run, acts, settled);
  }
}
