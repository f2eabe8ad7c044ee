/**
End-to-end order: the records of one thread and one queue kind are first transmitted in
increasing ticket order, through lane swap, interleaving, inbox, parking and batching.
*/
module ExporterOrder {
  import opened Records
  import opened Wrappers
  import opened Drain
  import opened Exporter
  import opened ExporterShape
  import opened ExporterTickets

  // ---------------------------------------------------------------- one thread's records

  function Mine(t: nat, kind: QueueKind): QueuedLog -> bool {
    (log: QueuedLog) => log.owner == t && log.queue == kind
  }

  /** The records of thread `t` and one queue kind, in the order of `logs`. */
  function Own(logs: seq<QueuedLog>, t: nat, kind: QueueKind): seq<QueuedLog> {
    Filter(Mine(t, kind), logs)
  }

  ghost predicate Ascending(logs: seq<QueuedLog>) {
    forall i, j :: 0 <= i < j < |logs| ==> logs[i].ticket < logs[j].ticket
  }

  lemma OwnConcat(a: seq<QueuedLog>, b: seq<QueuedLog>, t: nat, kind: QueueKind)
    ensures Own(a + b, t, kind) == Own(a, t, kind) + Own(b, t, kind)
  {
    FilterConcat(Mine(t, kind), a, b);
  }

  lemma OwnNone(logs: seq<QueuedLog>, t: nat, kind: QueueKind)
    requires forall log <- logs :: !(log.owner == t && log.queue == kind)
    ensures Own(logs, t, kind) == []
  {
    FilterNone(Mine(t, kind), logs);
  }

  lemma OwnOne(log: QueuedLog, t: nat, kind: QueueKind)
    ensures Own([log], t, kind) == if log.owner == t && log.queue == kind then [log] else []
  {
    FilterOne(Mine(t, kind), log);
  }

  /** Ascending as a sub-sequence means ascending wherever two of the thread's records stand. */
  lemma {:induction false} OwnPairs(logs: seq<QueuedLog>, t: nat, kind: QueueKind, i: nat, j: nat)
    requires Ascending(Own(logs, t, kind)) && i < j < |logs|
    requires logs[i].owner == t == logs[j].owner && logs[i].queue == kind == logs[j].queue
    ensures logs[i].ticket < logs[j].ticket
  {
    var init, last := logs[..|logs| - 1], logs[|logs| - 1];
    assert Own(init, t, kind) <= Own(logs, t, kind);
    if j < |logs| - 1 {
      OwnPairs(init, t, kind, i, j);
    } else {
      OwnHas(init, t, kind, i);
      var at :| 0 <= at < |Own(init, t, kind)| && Own(init, t, kind)[at] == logs[i];
      assert Own(logs, t, kind)[|Own(init, t, kind)|] == last;
    }
  }

  lemma {:induction false} OwnHas(logs: seq<QueuedLog>, t: nat, kind: QueueKind, i: nat)
    requires i < |logs| && logs[i].owner == t && logs[i].queue == kind
    ensures logs[i] in Own(logs, t, kind)
  {
    if i < |logs| - 1 {
      OwnHas(logs[..|logs| - 1], t, kind, i);
    }
  }

  // ---------------------------------------------------------------- the stream

  /** Records in the worker's hands that have not been sent yet. */
  function Unsent(pc: WorkerPc): seq<QueuedLog> {
    match pc
    case Refresh(site, _) => SiteLogs(site)
    case Input(at) => InputLogs(at)
    case Assemble(at) => BatchLogs(at)
    case Wait(at) => if at.WaitBatch? then at.batch else []
    case Settle(_, resume, _) => if resume.ToFill? then resume.batch else []
    case _ => []
  }

  function Head(s: State): seq<QueuedLog> {
    s.h.sent + Unsent(s.w.pc) + s.w.pending
  }

  function Inbox(w: Worker, kind: QueueKind): seq<QueuedLog> {
    if kind.Normal? then w.normal else w.reserved
  }

  function Taken(pc: WorkerPc): seq<LaneQueues> {
    if pc.Refresh? && pc.refresh.Taking? then pc.refresh.taken else []
  }

  function InLane(s: State, t: nat, kind: QueueKind): seq<QueuedLog>
    requires t < |s.producers|
  {
    match s.producers[t].lane
    case None => []
    case Some(l) => if l < |s.lanes| then s.lanes[l].queues.Of(kind) else []
  }

  /** The part of the stream that the worker does not hold. */
  function Upstream(s: State, t: nat, kind: QueueKind): seq<QueuedLog>
    requires t < |s.producers|
  {
    Own(InLane(s, t, kind), t, kind) + Own(HeldBy(s.producers[t]), t, kind)
  }

  /** From first sent to last accepted: one thread's records of one kind, place by place. */
  function Stream(s: State, t: nat, kind: QueueKind): seq<QueuedLog>
    requires t < |s.producers|
  {
    Own(Head(s), t, kind) + (Own(Inbox(s.w, kind), t, kind)
      + (Own(Concat(KindQueues(Taken(s.w.pc), kind)), t, kind) + Upstream(s, t, kind)))
  }

  ghost predicate InOrder(logs: seq<QueuedLog>, last: Ticket) {
    Ascending(logs) && forall log <- logs :: log.ticket <= last
  }

  ghost predicate OrderHolds(s: State) {
    forall t, kind: QueueKind :: 0 <= t < |s.producers| ==> InOrder(Stream(s, t, kind), s.sh.nextTicket)
  }

  /** Queues taken from a lane still bear that lane's owner; inbox queues are of one kind. */
  ghost predicate InboxFiled(s: State) {
    && (forall log <- s.w.normal :: log.queue == Normal)
    && (forall log <- s.w.reserved :: log.queue == Reserved)
    && (s.w.pc.Refresh? && s.w.pc.refresh.Taking? ==> TakenFiled(s, s.w.pc.refresh.visited, s.w.pc.refresh.taken))
  }

  ghost predicate TakenFiled(s: State, visited: seq<nat>, taken: seq<LaneQueues>) {
    && |visited| == |taken|
    && (forall i :: 0 <= i < |taken| ==> visited[i] < |s.lanes| && Filed(taken[i], s.lanes[visited[i]].owner))
  }

  lemma InitOrder(cfg: Config)
    ensures OrderHolds(Init(cfg)) && InboxFiled(Init(cfg))
  {
  }

  // ---------------------------------------------------------------- worker steps

  /** Removing a stretch keeps the order. */
  lemma DroppedStaysInOrder(a: seq<QueuedLog>, b: seq<QueuedLog>, c: seq<QueuedLog>, last: Ticket)
    requires InOrder(a + b + c, last)
    ensures InOrder(a + c, last)
  {
    var all := a + b + c;
    forall i, j | 0 <= i < j < |a + c|
      ensures (a + c)[i].ticket < (a + c)[j].ticket
    {
      var i', j' := if i < |a| then i else i + |b|, if j < |a| then j else j + |b|;
      assert all[i'] == (a + c)[i] && all[j'] == (a + c)[j];
    }
    forall log <- a + c
      ensures log.ticket <= last
    {
      assert log in all;
    }
  }

  ghost predicate SameSources(s: State, s': State) {
    && s'.producers == s.producers && s'.lanes == s.lanes && s'.sh.nextTicket == s.sh.nextTicket
    && Taken(s.w.pc) == [] == Taken(s'.w.pc)
    && (s'.w.pc.Refresh? && s'.w.pc.refresh.Taking? ==> s'.w.pc.refresh.visited == [])
  }

  /** Records change hands inside the worker, in order. */
  ghost predicate Passes(s: State, s': State) {
    SameSources(s, s') && Head(s') == Head(s) && s'.w.normal == s.w.normal && s'.w.reserved == s.w.reserved
  }

  /** The head of one inbox queue joins the worker's hands. */
  ghost predicate Takes(s: State, s': State, kind: QueueKind) {
    && SameSources(s, s') && Inbox(s.w, kind) != [] && Head(s') == Head(s) + [Inbox(s.w, kind)[0]]
    && Inbox(s'.w, kind) == Inbox(s.w, kind)[1..]
    && (forall other: QueueKind :: other != kind ==> Inbox(s'.w, other) == Inbox(s.w, other))
  }

  /** The newest record in the worker's hands is dropped. */
  ghost predicate Drops(s: State, s': State) {
    && SameSources(s, s') && s'.w.normal == s.w.normal && s'.w.reserved == s.w.reserved
    && exists log :: Head(s) == Head(s') + [log]
  }

  lemma PassingKeepsOrder(s: State, s': State)
    requires OrderHolds(s) && InboxFiled(s) && Passes(s, s')
    ensures OrderHolds(s') && InboxFiled(s')
  {
    forall t, kind: QueueKind | 0 <= t < |s'.producers|
      ensures InOrder(Stream(s', t, kind), s'.sh.nextTicket)
    {
      assert Stream(s', t, kind) == Stream(s, t, kind);
    }
  }

  lemma TakingKeepsStream(head: seq<QueuedLog>, inbox: seq<QueuedLog>, rest: seq<QueuedLog>, t: nat, kind: QueueKind)
    requires inbox != []
    ensures Own(head + [inbox[0]], t, kind) + (Own(inbox[1..], t, kind) + rest)
         == Own(head, t, kind) + (Own(inbox, t, kind) + rest)
  {
    OwnConcat(head, [inbox[0]], t, kind);
    OwnConcat([inbox[0]], inbox[1..], t, kind);
    assert inbox == [inbox[0]] + inbox[1..];
  }

  /** A head of the other queue kind is none of this stream's records. */
  lemma TakingOtherKind(head: seq<QueuedLog>, log: QueuedLog, t: nat, kind: QueueKind)
    requires log.queue != kind
    ensures Own(head + [log], t, kind) == Own(head, t, kind)
  {
    OwnConcat(head, [log], t, kind);
    OwnOne(log, t, kind);
  }

  /** Everything behind the worker's hands. */
  function Behind(s: State, t: nat, kind: QueueKind): seq<QueuedLog>
    requires t < |s.producers|
  {
    Own(Inbox(s.w, kind), t, kind) + Upstream(s, t, kind)
  }

  lemma StreamWithoutRefresh(s: State, t: nat, kind: QueueKind)
    requires t < |s.producers| && Taken(s.w.pc) == []
    ensures Stream(s, t, kind) == Own(Head(s), t, kind) + Behind(s, t, kind)
  {
    NothingTakenIsNothing(kind, t, Upstream(s, t, kind));
  }

  lemma NothingTakenIsNothing(kind: QueueKind, t: nat, rest: seq<QueuedLog>)
    ensures Own(Concat(KindQueues([], kind)), t, kind) + rest == rest
  {
    assert Own([], t, kind) == [];
  }

  lemma TakingKeepsOneStream(s: State, s': State, taken: QueueKind, t: nat, kind: QueueKind)
    requires InboxFiled(s) && Takes(s, s', taken) && t < |s.producers|
    ensures Stream(s', t, kind) == Stream(s, t, kind)
  {
    StreamWithoutRefresh(s, t, kind);
    StreamWithoutRefresh(s', t, kind);
    if kind == taken {
      TakingKeepsStream(Head(s), Inbox(s.w, kind), Upstream(s, t, kind), t, kind);
    } else {
      TakingOtherKind(Head(s), Inbox(s.w, taken)[0], t, kind);
    }
  }

  lemma TakingKeepsOrder(s: State, s': State, taken: QueueKind)
    requires OrderHolds(s) && InboxFiled(s) && Takes(s, s', taken)
    ensures OrderHolds(s') && InboxFiled(s')
  {
    forall t, kind: QueueKind | 0 <= t < |s'.producers|
      ensures InOrder(Stream(s', t, kind), s'.sh.nextTicket)
    {
      TakingKeepsOneStream(s, s', taken, t, kind);
    }
    assert forall log <- Inbox(s'.w, taken) :: log in Inbox(s.w, taken);
    match taken case Normal => assert s'.w.reserved == Inbox(s.w, Reserved);
        case Reserved => assert s'.w.normal == Inbox(s.w, Normal);
  }

  lemma DroppedFromHead(head: seq<QueuedLog>, log: QueuedLog, rest: seq<QueuedLog>, t: nat, kind: QueueKind,
                        last: Ticket)
    requires InOrder(Own(head + [log], t, kind) + rest, last)
    ensures InOrder(Own(head, t, kind) + rest, last)
  {
    OwnConcat(head, [log], t, kind);
    DroppedStaysInOrder(Own(head, t, kind), Own([log], t, kind), rest, last);
  }

  lemma DroppingKeepsOneStream(s: State, s': State, log: QueuedLog, t: nat, kind: QueueKind)
    requires SameSources(s, s') && s'.w.normal == s.w.normal && s'.w.reserved == s.w.reserved
    requires Head(s) == Head(s') + [log] && t < |s.producers|
    requires InOrder(Stream(s, t, kind), s.sh.nextTicket)
    ensures InOrder(Stream(s', t, kind), s'.sh.nextTicket)
  {
    StreamWithoutRefresh(s, t, kind);
    StreamWithoutRefresh(s', t, kind);
    assert Behind(s', t, kind) == Behind(s, t, kind);
    DroppedFromHead(Head(s'), log, Behind(s, t, kind), t, kind, s.sh.nextTicket);
  }

  lemma DroppingKeepsOrder(s: State, s': State)
    requires OrderHolds(s) && InboxFiled(s) && Drops(s, s')
    ensures OrderHolds(s') && InboxFiled(s')
  {
    var log :| Head(s) == Head(s') + [log];
    forall t, kind: QueueKind | 0 <= t < |s'.producers|
      ensures InOrder(Stream(s', t, kind), s'.sh.nextTicket)
    {
      DroppingKeepsOneStream(s, s', log, t, kind);
    }
  }

  // ---------------------------------------------------------------- the refresh

  lemma {:induction false} ConcatMembers(qs: seq<seq<QueuedLog>>, log: QueuedLog)
    requires log in Concat(qs)
    ensures exists i :: 0 <= i < |qs| && log in qs[i]
  {
    var init, last := qs[..|qs| - 1], qs[|qs| - 1];
    if log in Concat(init) {
      ConcatMembers(init, log);
      var i :| 0 <= i < |init| && log in init[i];
      assert log in qs[i];
    } else {
      assert log in qs[|qs| - 1];
    }
  }

  lemma InterleaveMembers(qs: seq<seq<QueuedLog>>, log: QueuedLog)
    requires log in Interleave(qs)
    ensures exists i :: 0 <= i < |qs| && log in qs[i]
  {
    InterleaveIsPermutation(qs);
    assert log in multiset(Interleave(qs));
    assert log in multiset(Concat(qs));
    ConcatMembers(qs, log);
  }

  ghost predicate OnlyIn(qs: seq<seq<QueuedLog>>, i: nat, t: nat, kind: QueueKind) {
    forall j, log :: 0 <= j < |qs| && j != i && log in qs[j] ==> !(log.owner == t && log.queue == kind)
  }

  lemma {:induction false} OwnOfConcat(qs: seq<seq<QueuedLog>>, i: nat, t: nat, kind: QueueKind)
    requires i < |qs| && OnlyIn(qs, i, t, kind)
    ensures Own(Concat(qs), t, kind) == Own(qs[i], t, kind)
  {
    var init, last := qs[..|qs| - 1], qs[|qs| - 1];
    OwnConcat(Concat(init), last, t, kind);
    if i < |qs| - 1 {
      OwnOfConcat(init, i, t, kind);
      OwnNone(last, t, kind);
    } else {
      forall log: QueuedLog | log in Concat(init)
        ensures !(log.owner == t && log.queue == kind)
      {
        ConcatMembers(init, log);
        var j :| 0 <= j < |init| && log in init[j];
        assert log in qs[j];
      }
      OwnNone(Concat(init), t, kind);
    }
  }

  /** Interleaving does not disturb one thread's records, whichever lane held them. */
  lemma OwnOfInterleave(qs: seq<seq<QueuedLog>>, i: nat, t: nat, kind: QueueKind)
    requires OnlyIn(qs, i, t, kind)
    ensures Own(Interleave(qs), t, kind) == Own(Concat(qs), t, kind)
  {
    if i < |qs| {
      InterleaveFilters(Mine(t, kind), qs, i);
      OwnOfConcat(qs, i, t, kind);
    } else {
      forall log: QueuedLog | log in Interleave(qs) || log in Concat(qs)
        ensures !(log.owner == t && log.queue == kind)
      {
        if log in Interleave(qs) { InterleaveMembers(qs, log); } else { ConcatMembers(qs, log); }
        var j :| 0 <= j < |qs| && log in qs[j];
      }
      OwnNone(Interleave(qs), t, kind);
      OwnNone(Concat(qs), t, kind);
    }
  }

  /** Each thread owns at most one lane, and a refresh visits each lane once. */
  lemma OneLanePerThread(s: State, visited: seq<nat>, taken: seq<LaneQueues>, t: nat, kind: QueueKind) returns (i: nat)
    requires LanesOwned(s) && Distinct(visited, |s.lanes|) && TakenFiled(s, visited, taken)
    ensures OnlyIn(KindQueues(taken, kind), i, t, kind)
  {
    if j :| 0 <= j < |taken| && s.lanes[visited[j]].owner == t {
      i := j;
      forall k | 0 <= k < |taken| && k != j
        ensures s.lanes[visited[k]].owner != t
      {
        assert visited[k] != visited[j];
      }
    } else {
      i := |taken|;
    }
  }

  lemma MergeParts(s: State, site: Site, todo: seq<nat>, visited: seq<nat>, taken: seq<LaneQueues>, t: nat,
                   kind: QueueKind)
    requires s.w.pc == Refresh(site, Taking(todo, visited, taken)) && t < |s.producers|
    ensures var s' := MergeTaken(s, site, taken);
      && Head(s') == Head(s) && Upstream(s', t, kind) == Upstream(s, t, kind) && Taken(s'.w.pc) == []
      && Inbox(s'.w, kind) == Inbox(s.w, kind) + Interleave(KindQueues(taken, kind))
  {
    match kind case Normal => case Reserved =>
  }

  lemma MergeKeepsOneStream(s: State, site: Site, todo: seq<nat>, visited: seq<nat>, taken: seq<LaneQueues>, t: nat,
                            kind: QueueKind)
    requires LanesOwned(s) && Distinct(visited, |s.lanes|) && TakenFiled(s, visited, taken)
    requires s.w.pc == Refresh(site, Taking(todo, visited, taken)) && t < |s.producers|
    ensures Stream(MergeTaken(s, site, taken), t, kind) == Stream(s, t, kind)
  {
    var i := OneLanePerThread(s, visited, taken, t, kind);
    MergeParts(s, site, todo, visited, taken, t, kind);
    StreamWithoutRefresh(MergeTaken(s, site, taken), t, kind);
    MergedInbox(Inbox(s.w, kind), KindQueues(taken, kind), Upstream(s, t, kind), i, t, kind);
  }

  lemma MergedInbox(inbox: seq<QueuedLog>, qs: seq<seq<QueuedLog>>, rest: seq<QueuedLog>, i: nat, t: nat,
                    kind: QueueKind)
    requires OnlyIn(qs, i, t, kind)
    ensures Own(inbox + Interleave(qs), t, kind) + rest == Own(inbox, t, kind) + (Own(Concat(qs), t, kind) + rest)
  {
    OwnOfInterleave(qs, i, t, kind);
    OwnConcat(inbox, Interleave(qs), t, kind);
  }

  lemma MergeKeepsFiling(s: State, site: Site, todo: seq<nat>, visited: seq<nat>, taken: seq<LaneQueues>)
    requires InboxFiled(s) && s.w.pc == Refresh(site, Taking(todo, visited, taken))
    ensures InboxFiled(MergeTaken(s, site, taken))
  {
    forall kind: QueueKind, log | log in Interleave(KindQueues(taken, kind))
      ensures log.queue == kind
    {
      InterleaveMembers(KindQueues(taken, kind), log);
    }
  }

  lemma MergeKeepsOrder(s: State, site: Site, todo: seq<nat>, visited: seq<nat>, taken: seq<LaneQueues>)
    requires Shape(s) && OrderHolds(s) && InboxFiled(s) && s.w.pc == Refresh(site, Taking(todo, visited, taken))
    ensures OrderHolds(MergeTaken(s, site, taken)) && InboxFiled(MergeTaken(s, site, taken))
  {
    assert forall i :: 0 <= i < |visited| ==> (visited + todo)[i] == visited[i];
    forall t, kind: QueueKind | 0 <= t < |s.producers|
      ensures InOrder(Stream(MergeTaken(s, site, taken), t, kind), s.sh.nextTicket)
    {
      MergeKeepsOneStream(s, site, todo, visited, taken, t, kind);
    }
    MergeKeepsFiling(s, site, todo, visited, taken);
  }

  lemma TakeParts(s: State, site: Site, todo: seq<nat>, visited: seq<nat>, taken: seq<LaneQueues>, t: nat,
                  kind: QueueKind)
    requires todo != [] && todo[0] < |s.lanes| && t < |s.producers|
    requires s.w.pc == Refresh(site, Taking(todo, visited, taken))
    ensures var s' := RefreshStep(s, site, s.w.pc.refresh).value;
      && Head(s') == Head(s) && Inbox(s'.w, kind) == Inbox(s.w, kind) && s'.producers == s.producers
      && s'.lanes == s.lanes[todo[0] := s.lanes[todo[0]].(queues := EMPTY_QUEUES)]
      && Taken(s'.w.pc) == taken + [s.lanes[todo[0]].queues]
  {
  }

  /** Swapping out a lane moves its records from the lane to what has been taken. */
  lemma TakeKeepsOneStream(s: State, site: Site, todo: seq<nat>, visited: seq<nat>, taken: seq<LaneQueues>, t: nat,
                           kind: QueueKind)
    requires LanesOwned(s) && LanesFiled(s) && todo != [] && todo[0] < |s.lanes| && t < |s.producers|
    requires s.w.pc == Refresh(site, Taking(todo, visited, taken))
    ensures Stream(RefreshStep(s, site, s.w.pc.refresh).value, t, kind) == Stream(s, t, kind)
  {
    var s' := RefreshStep(s, site, s.w.pc.refresh).value;
    TakeParts(s, site, todo, visited, taken, t, kind);
    TakenMovesUp(s, s', todo[0], t, kind);
    GrownTaken(taken, s.lanes[todo[0]].queues, Upstream(s', t, kind), t, kind);
  }

  lemma GrownTaken(taken: seq<LaneQueues>, q: LaneQueues, rest: seq<QueuedLog>, t: nat, kind: QueueKind)
    ensures Own(Concat(KindQueues(taken + [q], kind)), t, kind) + rest
         == Own(Concat(KindQueues(taken, kind)), t, kind) + (Own(q.Of(kind), t, kind) + rest)
  {
    TakenGrows(taken, q, kind);
    OwnConcat(Concat(KindQueues(taken, kind)), q.Of(kind), t, kind);
  }

  lemma TakenMovesUp(s: State, s': State, l: nat, t: nat, kind: QueueKind)
    requires LanesOwned(s) && LanesFiled(s) && l < |s.lanes| && t < |s.producers| && s'.producers == s.producers
    requires s'.lanes == s.lanes[l := s.lanes[l].(queues := EMPTY_QUEUES)]
    ensures Own(s.lanes[l].queues.Of(kind), t, kind) + Upstream(s', t, kind) == Upstream(s, t, kind)
  {
    if s.lanes[l].owner != t {
      OwnNone(s.lanes[l].queues.Of(kind), t, kind);
    }
  }

  lemma TakeKeepsOrder(s: State, site: Site, todo: seq<nat>, visited: seq<nat>, taken: seq<LaneQueues>)
    requires Shape(s) && OrderHolds(s) && InboxFiled(s) && todo != [] && todo[0] < |s.lanes|
    requires s.w.pc == Refresh(site, Taking(todo, visited, taken))
    ensures var s' := RefreshStep(s, site, s.w.pc.refresh).value; OrderHolds(s') && InboxFiled(s')
  {
    var s' := RefreshStep(s, site, s.w.pc.refresh).value;
    forall t, kind: QueueKind | 0 <= t < |s'.producers|
      ensures InOrder(Stream(s', t, kind), s'.sh.nextTicket)
    {
      TakeKeepsOneStream(s, site, todo, visited, taken, t, kind);
    }
  }

  lemma RefreshKeepsOrder(s: State, site: Site, at: RefreshPc)
    requires Shape(s) && OrderHolds(s) && InboxFiled(s) && s.w.pc == Refresh(site, at) && RefreshStep(s, site, at).Some?
    ensures OrderHolds(RefreshStep(s, site, at).value) && InboxFiled(RefreshStep(s, site, at).value)
  {
    match at
    case Retiring(_) => PassingKeepsOrder(s, RefreshStep(s, site, at).value);
    case RetireCheck(_) => PassingKeepsOrder(s, RefreshStep(s, site, at).value);
    case Taking(todo, visited, taken) =>
      if todo == [] {
        MergeKeepsOrder(s, site, todo, visited, taken);
      } else {
        TakeKeepsOrder(s, site, todo, visited, taken);
      }
  }

  // ---------------------------------------------------------------- the worker's other steps

  lemma InputKeepsOrder(s: State, at: InputPc)
    requires WorkerShape(s.w) && OrderHolds(s) && InboxFiled(s) && s.w.pc == Input(at)
    ensures OrderHolds(InputStep(s, at)) && InboxFiled(InputStep(s, at))
  {
    if at.Pop? && s.w.reserved != [] {
      PopTakes(s, at.site);
      TakingKeepsOrder(s, InputStep(s, at), Reserved);
    } else if at.Pop? && s.w.normal != [] {
      PopTakes(s, at.site);
      TakingKeepsOrder(s, InputStep(s, at), Normal);
    } else {
      InputPasses(s, at);
      PassingKeepsOrder(s, InputStep(s, at));
    }
  }

  lemma PopTakes(s: State, site: Site)
    requires WorkerShape(s.w) && s.w.pc == Input(Pop(site))
    ensures s.w.reserved != [] ==> Takes(s, InputStep(s, Pop(site)), Reserved)
    ensures s.w.reserved == [] && s.w.normal != [] ==> Takes(s, InputStep(s, Pop(site)), Normal)
  {
  }

  lemma InputPasses(s: State, at: InputPc)
    requires WorkerShape(s.w) && s.w.pc == Input(at) && (at.Pop? ==> s.w.reserved == [] && s.w.normal == [])
    ensures Passes(s, InputStep(s, at))
  {
    match at
    case Top =>
    case Choose =>
    case Poll(_) =>
    case Pop(site) => NothingPasses(s, site);
    case ReleaseRecord(_, _) =>
    case ReleaseBytes(site, log) => ReceivedPasses(s, site, log);
  }

  lemma NothingPasses(s: State, site: Site)
    requires WorkerShape(s.w) && s.w.pc == Input(Pop(site)) && s.w.reserved == [] && s.w.normal == []
    ensures Passes(s, InputStep(s, Pop(site)))
  {
    match site
    case AtTop =>
    case InReceive =>
    case InDrain =>
    case InLastPoll =>
    case InBatch(_) =>
    case InBatchWoken(_) =>
  }

  lemma ReceivedPasses(s: State, site: Site, log: QueuedLog)
    requires WorkerShape(s.w) && s.w.pc == Input(ReleaseBytes(site, log))
    ensures Passes(s, InputStep(s, ReleaseBytes(site, log)))
  {
    match site
    case AtTop =>
    case InReceive =>
    case InDrain =>
    case InLastPoll =>
    case InBatch(_) =>
    case InBatchWoken(_) =>
  }

  lemma BatchPassesOrDrops(s: State, at: BatchPc)
    requires WorkerShape(s.w) && s.w.pc == Assemble(at)
    ensures Passes(s, BatchStep(s, at)) || Drops(s, BatchStep(s, at))
  {
    match at
    case First(log) => if !s.cfg.Fits([log]) { assert Head(s) == Head(BatchStep(s, at)) + [log]; }
    case Fill(_) =>
    case Next(_, log) => if !s.cfg.Fits([log]) { assert Head(s) == Head(BatchStep(s, at)) + [log]; }
    case Export(_) =>
  }

  lemma BatchKeepsOrder(s: State, at: BatchPc)
    requires WorkerShape(s.w) && OrderHolds(s) && InboxFiled(s) && s.w.pc == Assemble(at)
    ensures OrderHolds(BatchStep(s, at)) && InboxFiled(BatchStep(s, at))
  {
    BatchPassesOrDrops(s, at);
    if Passes(s, BatchStep(s, at)) {
      PassingKeepsOrder(s, BatchStep(s, at));
    } else {
      DroppingKeepsOrder(s, BatchStep(s, at));
    }
  }

  lemma WaitPasses(s: State, at: WaitPc, m: WorkerMove)
    requires s.w.pc == Wait(at) && WaitStep(s, at, m).Some?
    ensures Passes(s, WaitStep(s, at, m).value)
  {
    match at
    case WaitReceive =>
    case WaitBatch(_) =>
    case WaitFence =>
    case CheckFence =>
    case StopStatus =>
    case StopNotify =>
    case Drained =>
  }

  lemma TransmitPasses(s: State, stack: seq<seq<QueuedLog>>, at: TransmitPc, m: WorkerMove)
    requires s.w.pc == Transmit(stack, at) && TransmitStep(s, stack, at, m).Some?
    ensures Passes(s, TransmitStep(s, stack, at, m).value)
  {
    match at
    case NextSegment =>
    case Send(records) => { match m.outcome case Accepted(_) => case InvalidPayload => case Retryable =>
        case Permanent => }
    case Backoff(_) =>
  }

  lemma SettlePasses(s: State, logs: seq<QueuedLog>, resume: Resume, at: SettlePc)
    requires s.w.pc == Settle(logs, resume, at)
    ensures Passes(s, SettleStep(s, logs, resume, at))
  {
    match at
    case Complete => { match resume case ToTop => case ToFill(_) => case ToNextSegment(_) => }
    case Publish =>
    case Progress =>
  }

  lemma FailPasses(s: State, stack: seq<seq<QueuedLog>>, at: FailPc)
    requires s.w.pc == Fail(stack, at) && !at.TermClear? && FailStep(s, stack, at).Some?
    ensures Passes(s, FailStep(s, stack, at).value)
  {
    match at
    case Terminal =>
    case TermShutdown =>
    case TermFence =>
    case TermWait =>
    case TermStatus(_) =>
    case TermNotify(_) =>
    case Discarded(_) =>
  }

  lemma ClearedUpstream(h: seq<QueuedLog>, inbox: seq<QueuedLog>, lane: seq<QueuedLog>, held: seq<QueuedLog>,
                        last: Ticket)
    requires InOrder(h + (inbox + (lane + held)), last)
    ensures InOrder(h + held, last)
  {
    assert h + (inbox + (lane + held)) == h + (inbox + lane) + held;
    DroppedStaysInOrder(h, inbox + lane, held, last);
  }

  lemma DiscardKeepsOneStream(s: State, stack: seq<seq<QueuedLog>>, t: nat, kind: QueueKind)
    requires s.w.pc == Fail(stack, TermClear) && t < |s.producers| && InOrder(Stream(s, t, kind), s.sh.nextTicket)
    ensures InOrder(Stream(Discard(s, stack), t, kind), s.sh.nextTicket)
  {
    var s' := Discard(s, stack);
    StreamWithoutRefresh(s, t, kind);
    StreamWithoutRefresh(s', t, kind);
    ClearedUpstream(Own(Head(s), t, kind), Own(Inbox(s.w, kind), t, kind), Own(InLane(s, t, kind), t, kind),
                    Own(HeldBy(s.producers[t]), t, kind), s.sh.nextTicket);
    DiscardEmpties(s, stack, t, kind);
  }

  lemma DiscardEmpties(s: State, stack: seq<seq<QueuedLog>>, t: nat, kind: QueueKind)
    requires s.w.pc == Fail(stack, TermClear) && t < |s.producers|
    ensures var s' := Discard(s, stack);
      Head(s') == Head(s) && Behind(s', t, kind) == Own(HeldBy(s.producers[t]), t, kind)
  {
    assert Own([], t, kind) == [];
  }

  lemma DiscardKeepsOrder(s: State, stack: seq<seq<QueuedLog>>)
    requires OrderHolds(s) && s.w.pc == Fail(stack, TermClear)
    ensures OrderHolds(Discard(s, stack)) && InboxFiled(Discard(s, stack))
  {
    forall t, kind: QueueKind | 0 <= t < |s.producers|
      ensures InOrder(Stream(Discard(s, stack), t, kind), s.sh.nextTicket)
    {
      DiscardKeepsOneStream(s, stack, t, kind);
    }
  }

  lemma WorkerKeepsOrder(s: State, m: WorkerMove)
    requires Shape(s) && OrderHolds(s) && InboxFiled(s) && WorkerStep(s, m).Some?
    ensures OrderHolds(WorkerStep(s, m).value) && InboxFiled(WorkerStep(s, m).value)
  {
    match s.w.pc
    case Refresh(site, at) => RefreshKeepsOrder(s, site, at);
    case Input(at) => InputKeepsOrder(s, at);
    case Assemble(at) => BatchKeepsOrder(s, at);
    case Wait(at) => WaitPasses(s, at, m); PassingKeepsOrder(s, WaitStep(s, at, m).value);
    case Transmit(stack, at) => TransmitPasses(s, stack, at, m);
        PassingKeepsOrder(s, TransmitStep(s, stack, at, m).value);
    case Settle(logs, resume, at) => SettlePasses(s, logs, resume, at);
        PassingKeepsOrder(s, SettleStep(s, logs, resume, at));
    case Fail(stack, at) => FailKeepsOrder(s, stack, at);
  }

  lemma FailKeepsOrder(s: State, stack: seq<seq<QueuedLog>>, at: FailPc)
    requires OrderHolds(s) && InboxFiled(s) && s.w.pc == Fail(stack, at) && FailStep(s, stack, at).Some?
    ensures OrderHolds(FailStep(s, stack, at).value) && InboxFiled(FailStep(s, stack, at).value)
  {
    if at.TermClear? {
      assert FailStep(s, stack, at) == Some(Discard(s, stack));
      DiscardKeepsOrder(s, stack);
    } else {
      FailPassingKeepsOrder(s, stack, at);
    }
  }

  lemma FailPassingKeepsOrder(s: State, stack: seq<seq<QueuedLog>>, at: FailPc)
    requires OrderHolds(s) && InboxFiled(s) && s.w.pc == Fail(stack, at) && !at.TermClear?
        && FailStep(s, stack, at).Some?
    ensures OrderHolds(FailStep(s, stack, at).value) && InboxFiled(FailStep(s, stack, at).value)
  {
    FailPasses(s, stack, at);
    PassingKeepsOrder(s, FailStep(s, stack, at).value);
  }

  // ---------------------------------------------------------------- producers and handle

  ghost predicate SameDownstream(s: State, s': State) {
    s'.w == s.w && s'.h.sent == s.h.sent && |s'.producers| == |s.producers|
  }

  /** A thread's step leaves every stream as it is, or appends the record just issued. */
  lemma SameUpstreamKeepsStream(s: State, s': State, t: nat, kind: QueueKind)
    requires SameDownstream(s, s') && t < |s.producers| && Upstream(s', t, kind) == Upstream(s, t, kind)
    ensures Stream(s', t, kind) == Stream(s, t, kind)
  {
  }

  lemma AppendedStaysInOrder(a: seq<QueuedLog>, b: seq<QueuedLog>, c: seq<QueuedLog>, up: seq<QueuedLog>,
                             new_: seq<QueuedLog>,
                             log: QueuedLog, last: Ticket)
    requires InOrder(a + (b + (c + up)), last) && log.ticket > last && (new_ == [] || new_ == [log])
    ensures InOrder(a + (b + (c + (up + new_))), log.ticket)
  {
    assert a + (b + (c + (up + new_))) == a + (b + (c + up)) + new_;
  }

  lemma TicketAppends(s: State, i: nat, draft: Draft, queue: QueueKind, t: nat, kind: QueueKind)
    requires i < |s.producers| && s.producers[i].pc == Ticketing(draft, queue) && TakeTicket(s, i, draft, queue).Some?
    requires t < |s.producers|
    ensures var s' := TakeTicket(s, i, draft, queue).value;
      && SameDownstream(s, s') && s'.producers[i].pc.Pushing? && s'.producers[i].pc.log.ticket == s.sh.nextTicket + 1
      && Upstream(s', t, kind) == Upstream(s, t, kind) + (if t == i then Own([s'.producers[i].pc.log], t, kind) else [])
  {
    var s' := TakeTicket(s, i, draft, queue).value;
    assert t == i ==> HeldBy(s.producers[t]) == [] && HeldBy(s'.producers[t]) == [s'.producers[i].pc.log];
    assert InLane(s', t, kind) == InLane(s, t, kind);
    assert Own([], t, kind) == [];
  }

  lemma TicketKeepsOneStream(s: State, i: nat, draft: Draft, queue: QueueKind, t: nat, kind: QueueKind)
    requires i < |s.producers| && s.producers[i].pc == Ticketing(draft, queue) && TakeTicket(s, i, draft, queue).Some?
    requires t < |s.producers| && InOrder(Stream(s, t, kind), s.sh.nextTicket)
    ensures var s' := TakeTicket(s, i, draft, queue).value; InOrder(Stream(s', t, kind), s'.sh.nextTicket)
  {
    var log := TakeTicket(s, i, draft, queue).value.producers[i].pc.log;
    TicketAppends(s, i, draft, queue, t, kind);
    OwnOne(log, t, kind);
    AppendedStaysInOrder(Own(Head(s), t, kind), Own(Inbox(s.w, kind), t, kind),
                         Own(Concat(KindQueues(Taken(s.w.pc), kind)), t, kind),
                         Upstream(s, t, kind), if t == i then Own([log], t, kind) else [], log, s.sh.nextTicket);
  }

  lemma PushKeepsUpstream(s: State, i: nat, log: QueuedLog, t: nat, kind: QueueKind)
    requires LanesOwned(s) && i < |s.producers| && s.producers[i].pc == Pushing(log) && Push(s, i, log).Some?
        && t < |s.producers|
    ensures Upstream(Push(s, i, log).value, t, kind) == Upstream(s, t, kind)
  {
    if t == i {
      PushMovesUp(s, i, log, kind);
    } else {
      PushElsewhere(s, i, log, t);
      assert InLane(Push(s, i, log).value, t, kind) == InLane(s, t, kind);
    }
  }

  lemma PushElsewhere(s: State, i: nat, log: QueuedLog, t: nat)
    requires LanesOwned(s) && i < |s.producers| && s.producers[i].pc == Pushing(log) && Push(s, i, log).Some?
    requires t < |s.producers| && t != i
    ensures var s' := Push(s, i, log).value;
      && |s'.lanes| == |s.lanes| && s'.producers[t] == s.producers[t]
      && (s.producers[t].lane.Some? ==> s'.lanes[s.producers[t].lane.value] == s.lanes[s.producers[t].lane.value])
  {
  }

  lemma PushMovesUp(s: State, i: nat, log: QueuedLog, kind: QueueKind)
    requires i < |s.producers| && s.producers[i].pc == Pushing(log) && Push(s, i, log).Some?
    ensures Upstream(Push(s, i, log).value, i, kind) == Upstream(s, i, kind)
  {
    var s' := Push(s, i, log).value;
    var lane := InLane(s, i, kind);
    assert InLane(s', i, kind) == if kind == log.queue then lane + [log] else lane;
    assert HeldBy(s.producers[i]) == [log] && HeldBy(s'.producers[i]) == [];
    PushedOwn(lane, log, i, kind);
  }

  lemma PushedOwn(lane: seq<QueuedLog>, log: QueuedLog, t: nat, kind: QueueKind)
    ensures Own(if kind == log.queue then lane + [log] else lane, t, kind) + Own([], t, kind)
         == Own(lane, t, kind) + Own([log], t, kind)
  {
    OwnConcat(lane, [log], t, kind);
    OwnOne(log, t, kind);
    assert Own([], t, kind) == [];
  }

  lemma MovedKeepsUpstream(s: State, s': State, i: nat, pc: ProducerPc, t: nat, kind: QueueKind)
    requires Moved(s, s', i, pc) && !s.producers[i].pc.Pushing? && !pc.Pushing? && t < |s.producers|
    ensures Upstream(s', t, kind) == Upstream(s, t, kind)
  {
  }

  lemma ExitKeepsUpstream(s: State, i: nat, t: nat, kind: QueueKind)
    requires LanesOwned(s) && i < |s.producers| && t < |s.producers|
    requires s.producers[i].pc.Outside? && s.producers[i].lane.Some?
    ensures EnterOrExit(s, i, Exit).Some? && Upstream(EnterOrExit(s, i, Exit).value, t, kind) == Upstream(s, t, kind)
  {
    ExitOnlyCloses(s, i, t);
    assert InLane(EnterOrExit(s, i, Exit).value, t, kind) == InLane(s, t, kind);
  }

  lemma ExitOnlyCloses(s: State, i: nat, t: nat)
    requires LanesOwned(s) && i < |s.producers| && t < |s.producers|
    requires s.producers[i].pc.Outside? && s.producers[i].lane.Some?
    ensures EnterOrExit(s, i, Exit).Some?
    ensures var s' := EnterOrExit(s, i, Exit).value;
      && |s'.lanes| == |s.lanes| && s'.producers[t].lane == s.producers[t].lane
      && HeldBy(s'.producers[t]) == HeldBy(s.producers[t])
      && (s.producers[t].lane.Some? ==>
          s'.lanes[s.producers[t].lane.value].queues == s.lanes[s.producers[t].lane.value].queues)
  {
  }

  lemma RegisteringKeepsUpstream(s: State, i: nat, draft: Draft, t: nat, kind: QueueKind)
    requires LanesOwned(s) && i < |s.producers| && t < |s.producers| && s.producers[i].pc == Resolving(draft)
    requires s.producers[i].lane.None? && ResolveLane(s, i, draft).Some?
    ensures Upstream(ResolveLane(s, i, draft).value, t, kind) == Upstream(s, t, kind)
  {
    RegisteringOnlyAdds(s, i, draft, t, kind);
    assert InLane(ResolveLane(s, i, draft).value, t, kind) == InLane(s, t, kind);
  }

  lemma RegisteringOnlyAdds(s: State, i: nat, draft: Draft, t: nat, kind: QueueKind)
    requires LanesOwned(s) && i < |s.producers| && t < |s.producers| && s.producers[i].pc == Resolving(draft)
    requires s.producers[i].lane.None? && ResolveLane(s, i, draft).Some?
    ensures var s' := ResolveLane(s, i, draft).value;
      HeldBy(s'.producers[t]) == HeldBy(s.producers[t]) && InLane(s', t, kind) == InLane(s, t, kind)
  {
    if t != i && s.producers[t].lane.Some? {
      assert ResolveLane(s, i, draft).value.lanes[s.producers[t].lane.value] == s.lanes[s.producers[t].lane.value];
    }
  }

  lemma ProducerLeavesSent(s: State, t: nat, m: ProducerMove)
    requires ProducerStep(s, t, m).Some?
    ensures SameDownstream(s, ProducerStep(s, t, m).value)
    ensures !s.producers[t].pc.Ticketing? ==> ProducerStep(s, t, m).value.sh.nextTicket == s.sh.nextTicket
    ensures var s' := ProducerStep(s, t, m).value;
      |s.lanes| <= |s'.lanes| && forall l :: 0 <= l < |s.lanes| ==> s'.lanes[l].owner == s.lanes[l].owner
  {
    match s.producers[t].pc
    case Outside =>
    case Loaded =>
    case Resolving(_) =>
    case ClaimBytes(_, _) =>
    case UndoBytes(_, _) =>
    case ClaimRecord(_, _) =>
    case UndoRecord(_, _) =>
    case ReturnBytes(_, _) =>
    case Ticketing(_, _) =>
    case Pushing(_) =>
    case Notifying =>
    case Leaving =>
    case Closing =>
    case Gone =>
  }

  lemma ProducerKeepsUpstream(s: State, i: nat, m: ProducerMove, t: nat, kind: QueueKind)
    requires LanesOwned(s) && ProducerStep(s, i, m).Some? && t < |s.producers| && !s.producers[i].pc.Ticketing?
    ensures Upstream(ProducerStep(s, i, m).value, t, kind) == Upstream(s, t, kind)
  {
    if OnlyMoves(s.producers[i], m) {
      var pc := ProducerMoves(s, i, m);
      MovedKeepsUpstream(s, ProducerStep(s, i, m).value, i, pc, t, kind);
    } else {
      match s.producers[i].pc
      case Outside => ExitKeepsUpstream(s, i, t, kind);
      case Resolving(draft) => RegisteringKeepsUpstream(s, i, draft, t, kind);
      case Pushing(log) => PushKeepsUpstream(s, i, log, t, kind);
    }
  }

  lemma ProducerKeepsOneStream(s: State, i: nat, m: ProducerMove, t: nat, kind: QueueKind)
    requires LanesOwned(s) && ProducerStep(s, i, m).Some? && t < |s.producers|
    requires InOrder(Stream(s, t, kind), s.sh.nextTicket)
    ensures var s' := ProducerStep(s, i, m).value; t < |s'.producers| && InOrder(Stream(s', t, kind), s'.sh.nextTicket)
  {
    ProducerLeavesSent(s, i, m);
    if s.producers[i].pc.Ticketing? {
      TicketKeepsOneStream(s, i, s.producers[i].pc.draft, s.producers[i].pc.queue, t, kind);
    } else {
      ProducerKeepsUpstream(s, i, m, t, kind);
      SameUpstreamKeepsStream(s, ProducerStep(s, i, m).value, t, kind);
    }
  }

  lemma ProducerKeepsOrder(s: State, i: nat, m: ProducerMove)
    requires LanesOwned(s) && OrderHolds(s) && InboxFiled(s) && ProducerStep(s, i, m).Some?
    ensures OrderHolds(ProducerStep(s, i, m).value) && InboxFiled(ProducerStep(s, i, m).value)
  {
    var s' := ProducerStep(s, i, m).value;
    ProducerLeavesSent(s, i, m);
    forall t, kind: QueueKind | 0 <= t < |s'.producers|
      ensures InOrder(Stream(s', t, kind), s'.sh.nextTicket)
    {
      ProducerKeepsOneStream(s, i, m, t, kind);
    }
  }

  /** An aborted worker forgets its batch and what it had taken; the rest stays in order. */
  lemma ForgottenStaysInOrder(sent: seq<QueuedLog>, held: seq<QueuedLog>, parked: seq<QueuedLog>,
                              inbox: seq<QueuedLog>, taken: seq<QueuedLog>, up: seq<QueuedLog>, last: Ticket)
    requires InOrder(sent + held + parked + (inbox + (taken + up)), last)
    ensures InOrder(sent + parked + (inbox + up), last)
  {
    assert sent + held + parked + (inbox + (taken + up)) == sent + held + (parked + inbox + taken + up);
    DroppedStaysInOrder(sent, held, parked + inbox + taken + up, last);
    assert sent + (parked + inbox + taken + up) == sent + parked + inbox + taken + up;
    DroppedStaysInOrder(sent + parked + inbox, taken, up, last);
    assert sent + parked + inbox + up == sent + parked + (inbox + up);
  }

  lemma AbortKeepsOneStream(s: State, s': State, t: nat, kind: QueueKind)
    requires t < |s.producers| && InOrder(Stream(s, t, kind), s.sh.nextTicket)
    requires s'.producers == s.producers && s'.lanes == s.lanes && s'.h.sent == s.h.sent
    requires s'.w.pc.Aborted? && SameWorkerData(s.w, s'.w)
    ensures InOrder(Stream(s', t, kind), s.sh.nextTicket)
  {
    StreamWithoutRefresh(s', t, kind);
    OwnConcat(s.h.sent + Unsent(s.w.pc), s.w.pending, t, kind);
    OwnConcat(s.h.sent, Unsent(s.w.pc), t, kind);
    AbortedHead(s, s', t, kind);
    ForgottenStaysInOrder(Own(s.h.sent, t, kind), Own(Unsent(s.w.pc), t, kind), Own(s.w.pending, t, kind),
        Own(Inbox(s.w, kind), t, kind),
                          Own(Concat(KindQueues(Taken(s.w.pc), kind)), t, kind), Upstream(s, t, kind), s.sh.nextTicket);
  }

  lemma AbortedHead(s: State, s': State, t: nat, kind: QueueKind)
    requires t < |s.producers| && s'.producers == s.producers && s'.lanes == s.lanes && s'.h.sent == s.h.sent
    requires s'.w.pc.Aborted? && SameWorkerData(s.w, s'.w)
    ensures Own(Head(s'), t, kind) == Own(s.h.sent, t, kind) + Own(s.w.pending, t, kind)
    ensures Behind(s', t, kind) == Own(Inbox(s.w, kind), t, kind) + Upstream(s, t, kind)
  {
    assert Head(s') == s.h.sent + s.w.pending;
    OwnConcat(s.h.sent, s.w.pending, t, kind);
  }

  lemma HandleKeepsOrder(s: State, m: HandleMove)
    requires OrderHolds(s) && InboxFiled(s) && HandleStep(s, m).Some?
    ensures OrderHolds(HandleStep(s, m).value) && InboxFiled(HandleStep(s, m).value)
  {
    HandleFrame(s, m);
    var s' := HandleStep(s, m).value;
    forall t, kind: QueueKind | 0 <= t < |s'.producers|
      ensures InOrder(Stream(s', t, kind), s'.sh.nextTicket)
    {
      if s'.w.pc.Aborted? {
        AbortKeepsOneStream(s, s', t, kind);
      } else {
        assert Stream(s', t, kind) == Stream(s, t, kind);
      }
    }
  }

  lemma StepKeepsOrder(s: State, a: Action)
    requires Shape(s) && OrderHolds(s) && InboxFiled(s) && Step(s, a).Some?
    ensures OrderHolds(Step(s, a).value) && InboxFiled(Step(s, a).value)
  {
    match a
    case ByProducer(t, m) => ProducerKeepsOrder(s, t, m);
    case ByWorker(m) => WorkerKeepsOrder(s, m);
    case ByFlusher(f, m) => FlusherKeepsOrder(s, f, m);
    case ByHandle(m) => HandleKeepsOrder(s, m);
  }

  lemma FlusherKeepsOrder(s: State, f: nat, m: FlushMove)
    requires OrderHolds(s) && InboxFiled(s) && FlushStep(s, f, m).Some?
    ensures OrderHolds(FlushStep(s, f, m).value) && InboxFiled(FlushStep(s, f, m).value)
  {
    FlushFrame(s, f, m);
    var s' := FlushStep(s, f, m).value;
    forall t, kind: QueueKind | 0 <= t < |s'.producers|
      ensures InOrder(Stream(s', t, kind), s'.sh.nextTicket)
    {
      assert Stream(s', t, kind) == Stream(s, t, kind);
    }
  }

  lemma FrontAscends(front: seq<QueuedLog>, middle: seq<QueuedLog>, rest: seq<QueuedLog>, last: Ticket)
    requires InOrder(front + middle + rest, last)
    ensures Ascending(front)
  {
    assert forall i :: 0 <= i < |front| ==> (front + middle + rest)[i] == front[i];
  }

  lemma SentIsAscending(s: State, t: nat, kind: QueueKind)
    requires OrderHolds(s) && t < |s.producers|
    ensures Ascending(Own(s.h.sent, t, kind))
  {
    assert InOrder(Stream(s, t, kind), s.sh.nextTicket);
    assert Own(Head(s), t, kind) == Own(s.h.sent, t, kind) + Own(Unsent(s.w.pc) + s.w.pending, t, kind) by {
      assert Head(s) == s.h.sent + (Unsent(s.w.pc) + s.w.pending);
      OwnConcat(s.h.sent, Unsent(s.w.pc) + s.w.pending, t, kind);
    }
    FrontAscends(Own(s.h.sent, t, kind), Own(Unsent(s.w.pc) + s.w.pending, t, kind),
                 Own(Inbox(s.w, kind), t, kind)
                   + (Own(Concat(KindQueues(Taken(s.w.pc), kind)), t, kind) + Upstream(s, t, kind)), s.sh.nextTicket);
  }

  /** Any two records of one thread and one kind are first sent in ticket order. */
  lemma SentInTicketOrder(s: State, i: nat, j: nat)
    requires OrderHolds(s) && i < j < |s.h.sent|
    requires s.h.sent[i].owner == s.h.sent[j].owner < |s.producers| && s.h.sent[i].queue == s.h.sent[j].queue
    ensures s.h.sent[i].ticket < s.h.sent[j].ticket
  {
    SentIsAscending(s, s.h.sent[i].owner, s.h.sent[i].queue);
    OwnPairs(s.h.sent, s.h.sent[i].owner, s.h.sent[i].queue, i, j);
  }
}
