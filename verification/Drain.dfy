/**
Draining producer lanes: lane queues are swapped out whole, interleaved in quanta
of 64 records per lane and pass, and lanes take turns at going first.
*/
module Drain {
  import opened Records

  const DRAIN_QUANTUM: nat := 64

  function Quantum<T>(q: seq<T>): nat {
    if |q| < DRAIN_QUANTUM then |q| else DRAIN_QUANTUM
  }

  /** One pass over the lanes: at most one quantum from each, in lane order. */
  function OnePass<T>(qs: seq<seq<T>>): seq<T> {
    if qs == [] then []
    else var q := qs[|qs| - 1]; OnePass(qs[..|qs| - 1]) + q[..Quantum(q)]
  }

  function AfterPass<T>(qs: seq<seq<T>>): (r: seq<seq<T>>)
    ensures |r| == |qs|
    ensures forall i :: 0 <= i < |qs| ==> r[i] == qs[i][Quantum(qs[i])..]
  {
    seq(|qs|, i requires 0 <= i < |qs| => qs[i][Quantum(qs[i])..])
  }

  function Concat<T>(qs: seq<seq<T>>): seq<T> {
    if qs == [] then [] else Concat(qs[..|qs| - 1]) + qs[|qs| - 1]
  }

  /** Passes repeat until one of them moves nothing. */
  function Interleave<T>(qs: seq<seq<T>>): seq<T>
    decreases |Concat(qs)|
  {
    if OnePass(qs) == [] then []
    else
      PassShrinks(qs);
      OnePass(qs) + Interleave(AfterPass(qs))
  }

  lemma {:induction false} PassShrinks<T>(qs: seq<seq<T>>)
    ensures |Concat(qs)| == |OnePass(qs)| + |Concat(AfterPass(qs))|
    decreases |qs|
  {
    if qs != [] {
      var init := qs[..|qs| - 1];
      PassShrinks(init);
      assert AfterPass(qs)[..|qs| - 1] == AfterPass(init);
    }
  }

  lemma {:induction false} OnePassEmpty<T>(qs: seq<seq<T>>)
    ensures OnePass(qs) == [] <==> forall i :: 0 <= i < |qs| ==> qs[i] == []
  {
    if qs != [] {
      var init := qs[..|qs| - 1];
      OnePassEmpty(init);
      assert qs == init + [qs[|qs| - 1]];
      if OnePass(qs) == [] {
        assert qs[|qs| - 1] == [];
      }
    }
  }

  // ---------------------------------------------------------------- nothing lost, nothing added

  lemma {:induction false} PassIsPermutation<T>(qs: seq<seq<T>>)
    ensures multiset(OnePass(qs)) + multiset(Concat(AfterPass(qs))) == multiset(Concat(qs))
    decreases |qs|
  {
    if qs != [] {
      var init, q := qs[..|qs| - 1], qs[|qs| - 1];
      PassIsPermutation(init);
      assert AfterPass(qs)[..|qs| - 1] == AfterPass(init);
      assert q == q[..Quantum(q)] + q[Quantum(q)..];
    }
  }

  /** The drain output is a permutation of everything the lanes held. */
  lemma {:induction false} InterleaveIsPermutation<T>(qs: seq<seq<T>>)
    ensures multiset(Interleave(qs)) == multiset(Concat(qs))
    decreases |Concat(qs)|
  {
    PassIsPermutation(qs);
    PassShrinks(qs);
    if OnePass(qs) == [] {
      OnePassEmpty(qs);
      assert AfterPass(qs) == qs;
      AllEmptyConcat(qs);
    } else {
      InterleaveIsPermutation(AfterPass(qs));
    }
  }

  lemma {:induction false} AllEmptyConcat<T>(qs: seq<seq<T>>)
    requires forall i :: 0 <= i < |qs| ==> qs[i] == []
    ensures Concat(qs) == []
  {
    if qs != [] {
      AllEmptyConcat(qs[..|qs| - 1]);
    }
  }

  // ---------------------------------------------------------------- order and fairness

  /** Where record `k` of lane `i` lands in the drain output. */
  function Position<T>(qs: seq<seq<T>>, i: nat, k: nat): nat
    requires i < |qs| && k < |qs[i]|
    decreases k
  {
    if k < DRAIN_QUANTUM then |OnePass(qs[..i])| + k
    else |OnePass(qs)| + Position(AfterPass(qs), i, k - DRAIN_QUANTUM)
  }

  lemma {:induction false} OnePassBound<T>(qs: seq<seq<T>>)
    ensures |OnePass(qs)| <= DRAIN_QUANTUM * |qs|
  {
    if qs != [] {
      OnePassBound(qs[..|qs| - 1]);
    }
  }

  /** Within one pass lane `i` contributes its leading quantum right after the lanes before it. */
  lemma {:induction false} OnePassAt<T>(qs: seq<seq<T>>, i: nat, k: nat)
    requires i < |qs| && k < |qs[i]| && k < DRAIN_QUANTUM
    ensures |OnePass(qs[..i])| + k < |OnePass(qs)|
    ensures OnePass(qs)[|OnePass(qs[..i])| + k] == qs[i][k]
    decreases |qs|
  {
    if i < |qs| - 1 {
      OnePassAt(qs[..|qs| - 1], i, k);
      assert qs[..|qs| - 1][..i] == qs[..i];
    }
  }

  lemma InterleaveStarts<T>(qs: seq<seq<T>>)
    requires OnePass(qs) != []
    ensures Interleave(qs) == OnePass(qs) + Interleave(AfterPass(qs))
  {
  }

  lemma Behind<T>(a: seq<T>, b: seq<T>, k: nat)
    requires k < |b|
    ensures |a| + k < |a + b| && (a + b)[|a| + k] == b[k]
  {
  }

  lemma AfterPassAt<T>(qs: seq<seq<T>>, i: nat, k: nat)
    requires i < |qs| && DRAIN_QUANTUM <= k < |qs[i]|
    ensures k - DRAIN_QUANTUM < |AfterPass(qs)[i]| && AfterPass(qs)[i][k - DRAIN_QUANTUM] == qs[i][k]
  {
  }

  lemma FirstPassAt<T>(qs: seq<seq<T>>, i: nat, k: nat)
    requires i < |qs| && k < |qs[i]| && k < DRAIN_QUANTUM
    ensures |OnePass(qs[..i])| + k < |Interleave(qs)|
    ensures Interleave(qs)[|OnePass(qs[..i])| + k] == qs[i][k]
  {
    OnePassAt(qs, i, k);
    InterleaveStarts(qs);
  }

  lemma LaterPassAt<T>(qs: seq<seq<T>>, at: nat)
    requires OnePass(qs) != [] && at < |Interleave(AfterPass(qs))|
    ensures |OnePass(qs)| + at < |Interleave(qs)|
    ensures Interleave(qs)[|OnePass(qs)| + at] == Interleave(AfterPass(qs))[at]
  {
    InterleaveStarts(qs);
    Behind(OnePass(qs), Interleave(AfterPass(qs)), at);
  }

  lemma PassMoves<T>(qs: seq<seq<T>>, i: nat)
    requires i < |qs| && qs[i] != []
    ensures OnePass(qs) != []
  {
    OnePassAt(qs, i, 0);
  }

  lemma PositionLater<T>(qs: seq<seq<T>>, i: nat, k: nat)
    requires i < |qs| && DRAIN_QUANTUM <= k < |qs[i]|
    ensures k - DRAIN_QUANTUM < |AfterPass(qs)[i]|
    ensures Position(qs, i, k) == |OnePass(qs)| + Position(AfterPass(qs), i, k - DRAIN_QUANTUM)
  {
    AfterPassAt(qs, i, k);
  }

  /** Every record comes out at its position. */
  lemma {:induction false} InterleaveAt<T>(qs: seq<seq<T>>, i: nat, k: nat)
    requires i < |qs| && k < |qs[i]|
    ensures Position(qs, i, k) < |Interleave(qs)| && Interleave(qs)[Position(qs, i, k)] == qs[i][k]
    decreases k
  {
    if k < DRAIN_QUANTUM {
      FirstPassAt(qs, i, k);
    } else {
      PassMoves(qs, i);
      AfterPassAt(qs, i, k);
      InterleaveAt(AfterPass(qs), i, k - DRAIN_QUANTUM);
      PositionLater(qs, i, k);
      Lands(qs, AfterPass(qs), Position(AfterPass(qs), i, k - DRAIN_QUANTUM), qs[i][k], Position(qs, i, k));
    }
  }

  lemma Lands<T>(qs: seq<seq<T>>, rest: seq<seq<T>>, at: nat, x: T, pos: nat)
    requires rest == AfterPass(qs) && OnePass(qs) != [] && pos == |OnePass(qs)| + at
    requires at < |Interleave(rest)| && Interleave(rest)[at] == x
    ensures pos < |Interleave(qs)| && Interleave(qs)[pos] == x
  {
    LaterPassAt(qs, at);
  }

  lemma FirstBound(n: nat, passes: nat, width: nat)
    requires n < width
    ensures n < width * (passes + 1)
  {
    assert width * (passes + 1) == width * passes + width;
  }

  lemma LaterBound(pass: nat, later: nat, passes: nat, width: nat)
    requires pass <= width && later < width * passes
    ensures pass + later < width * (passes + 1)
  {
    assert width * (passes + 1) == width * passes + width;
  }

  lemma FirstPosition<T>(qs: seq<seq<T>>, i: nat, k: nat)
    requires i < |qs| && k < |qs[i]| && k < DRAIN_QUANTUM
    ensures Position(qs, i, k) < DRAIN_QUANTUM * |qs|
  {
    OnePassBound(qs[..i]);
    assert DRAIN_QUANTUM * i + DRAIN_QUANTUM <= DRAIN_QUANTUM * |qs|;
  }

  lemma {:induction false} PositionBound<T>(qs: seq<seq<T>>, i: nat, k: nat, passes: nat, width: nat)
    requires i < |qs| && k < |qs[i]| && k < DRAIN_QUANTUM * (passes + 1) && width == DRAIN_QUANTUM * |qs|
    ensures Position(qs, i, k) < width * (passes + 1)
    decreases passes
  {
    if k < DRAIN_QUANTUM {
      FirstPosition(qs, i, k);
      FirstBound(Position(qs, i, k), passes, width);
    } else {
      AfterPassAt(qs, i, k);
      assert Position(qs, i, k) == |OnePass(qs)| + Position(AfterPass(qs), i, k - DRAIN_QUANTUM) by {
        PositionLater(qs, i, k);
      }
      assert |OnePass(qs)| <= width by {
        OnePassBound(qs);
      }
      PositionBound(AfterPass(qs), i, k - DRAIN_QUANTUM, passes - 1, width);
      LaterBound(|OnePass(qs)|, Position(AfterPass(qs), i, k - DRAIN_QUANTUM), passes, width);
    }
  }

  /** Fewer than 64*n*(k/64 + 1) records come before record k of any of n lanes,
      however full the other lanes are. */
  lemma NoLaneStarves<T>(qs: seq<seq<T>>, i: nat, k: nat)
    requires i < |qs| && k < |qs[i]|
    ensures Position(qs, i, k) < (64 * |qs|) * (k / 64 + 1)
  {
    PositionBound(qs, i, k, k / DRAIN_QUANTUM, DRAIN_QUANTUM * |qs|);
  }

  /** The first lane contributes 64 records before the second gets its turn, and no more. */
  lemma FirstTurn<T>(qs: seq<seq<T>>, k: nat)
    requires |qs| > 1 && k < |qs[0]|
    ensures k < 64 ==> k < |Interleave(qs)| && Interleave(qs)[k] == qs[0][k]
    ensures |qs[0]| >= 64 && qs[1] != [] ==> 64 < |Interleave(qs)| && Interleave(qs)[64] == qs[1][0]
  {
    assert OnePass(qs[..0]) == [];
    if k < 64 {
      InterleaveAt(qs, 0, k);
    }
    if |qs[0]| >= 64 && qs[1] != [] {
      InterleaveAt(qs, 1, 0);
      assert qs[..1][..0] == [] && qs[..1][0] == qs[0];
    }
  }

  /** Each lane stays first-in first-out. */
  lemma {:induction false} LaneIsFifo<T>(qs: seq<seq<T>>, i: nat, k: nat, later: nat)
    requires i < |qs| && k < later < |qs[i]|
    ensures Position(qs, i, k) < Position(qs, i, later)
    decreases k
  {
    if k >= DRAIN_QUANTUM {
      LaneIsFifo(AfterPass(qs), i, k - DRAIN_QUANTUM, later - DRAIN_QUANTUM);
    } else if later >= DRAIN_QUANTUM {
      OnePassAt(qs, i, k);
    }
  }

  /** Records that only one lane can hold leave the drain in that lane's order. */
  lemma {:induction false} InterleaveFilters<T>(p: T -> bool, qs: seq<seq<T>>, i: nat)
    requires i < |qs|
    requires forall j, x :: 0 <= j < |qs| && j != i && x in qs[j] ==> !p(x)
    ensures Filter(p, Interleave(qs)) == Filter(p, qs[i])
    decreases |Concat(qs)|
  {
    OnePassFilters(p, qs, i);
    var q := qs[i];
    FilterConcat(p, q[..Quantum(q)], q[Quantum(q)..]);
    assert q == q[..Quantum(q)] + q[Quantum(q)..];
    if OnePass(qs) == [] {
      OnePassEmpty(qs);
    } else {
      PassShrinks(qs);
      InterleaveFilters(p, AfterPass(qs), i);
      FilterConcat(p, OnePass(qs), Interleave(AfterPass(qs)));
    }
  }

  lemma {:induction false} OnePassFilters<T>(p: T -> bool, qs: seq<seq<T>>, i: nat)
    requires i < |qs|
    requires forall j, x :: 0 <= j < |qs| && j != i && x in qs[j] ==> !p(x)
    ensures Filter(p, OnePass(qs)) == Filter(p, qs[i][..Quantum(qs[i])])
    decreases |qs|
  {
    var init, q := qs[..|qs| - 1], qs[|qs| - 1];
    FilterConcat(p, OnePass(init), q[..Quantum(q)]);
    if i < |qs| - 1 {
      OnePassFilters(p, init, i);
      FilterNone(p, q[..Quantum(q)]);
    } else {
      OnePassOfOthers(p, init);
    }
  }

  lemma {:induction false} OnePassOfOthers<T>(p: T -> bool, qs: seq<seq<T>>)
    requires forall j, x :: 0 <= j < |qs| && x in qs[j] ==> !p(x)
    ensures Filter(p, OnePass(qs)) == []
  {
    if qs != [] {
      var init, q := qs[..|qs| - 1], qs[|qs| - 1];
      OnePassOfOthers(p, init);
      FilterNone(p, q[..Quantum(q)]);
      FilterConcat(p, OnePass(init), q[..Quantum(q)]);
    }
  }

  // ---------------------------------------------------------------- rotation

  /** The order in which one drain visits the registered lanes: from the cursor on, then from the start. */
  function Rotated<T>(lanes: seq<T>, cursor: nat): (r: seq<T>)
    ensures |r| == |lanes|
    ensures forall x <- r :: x in lanes
  {
    if lanes == [] then [] else
    var start := cursor % |lanes|;
    lanes[start..] + lanes[..start]
  }

  function NextCursor(cursor: nat, laneCount: nat): nat {
    if laneCount == 0 then 0 else (cursor % laneCount + 1) % laneCount
  }

  lemma ModuloBelowTwice(a: nat, n: nat)
    requires n > 0 && a < 2 * n
    ensures a % n == if a < n then a else a - n
  {
    var q := a / n;
    assert a == n * q + a % n;
    assert q >= 2 ==> n * q >= n * 2;
    assert q == 0 || q == 1;
  }

  /** The k-th lane visited is the one k places after the cursor, going around. */
  lemma RotatedAt<T>(lanes: seq<T>, cursor: nat, k: nat)
    requires k < |lanes|
    ensures Rotated(lanes, cursor)[k] == lanes[(cursor % |lanes| + k) % |lanes|]
  {
    ModuloBelowTwice(cursor % |lanes| + k, |lanes|);
  }

  /** Each lane is visited exactly once. */
  lemma RotationIsPermutation<T>(lanes: seq<T>, cursor: nat)
    ensures multiset(Rotated(lanes, cursor)) == multiset(lanes)
  {
    if lanes != [] {
      var start := cursor % |lanes|;
      assert lanes == lanes[..start] + lanes[start..];
    }
  }

  /** The code's index arithmetic for the visiting order. */
  method VisitOrder<T>(lanes: seq<T>, cursor: nat) returns (ordered: seq<T>)
    requires lanes != []
    ensures ordered == Rotated(lanes, cursor)
  {
    var start := cursor % |lanes|;
    ordered := [];
    for offset := 0 to |lanes|
      invariant ordered == (lanes[start..] + lanes[..start])[..offset]
    {
      ModuloBelowTwice(start + offset, |lanes|);
      ordered := ordered + [lanes[(start + offset) % |lanes|]];
    }
  }

  /** The cursor after `drains` further drains of a stable set of lanes. */
  function CursorAfter(cursor: nat, laneCount: nat, drains: nat): nat {
    if drains == 0 then cursor else NextCursor(CursorAfter(cursor, laneCount, drains - 1), laneCount)
  }

  lemma {:induction false} CursorAdvances(cursor: nat, n: nat, drains: nat)
    requires n > 0 && drains < n
    ensures
      var lead := CursorAfter(cursor, n, drains) % n;
      lead == if cursor % n + drains < n then cursor % n + drains else cursor % n + drains - n
  {
    if drains > 0 {
      CursorAdvances(cursor, n, drains - 1);
      var lead := CursorAfter(cursor, n, drains - 1) % n;
      ModuloBelowTwice(lead + 1, n);
      ModuloBelowTwice((lead + 1) % n, n);
    }
  }

  /** Over any `|lanes|` consecutive drains each lane goes first exactly once:
      lane `i` leads drain `d` for one and only one `d` below the lane count. */
  lemma EachLaneLeadsOnce<T>(lanes: seq<T>, cursor: nat, i: nat) returns (d: nat)
    requires i < |lanes|
    ensures d < |lanes|
    ensures Rotated(lanes, CursorAfter(cursor, |lanes|, d))[0] == lanes[i]
    ensures forall e: nat :: e < |lanes| ==> (CursorAfter(cursor, |lanes|, e) % |lanes| == i <==> e == d)
  {
    var n, c := |lanes|, cursor % |lanes|;
    d := if i >= c then i - c else i + n - c;
    forall e: nat | e < n
      ensures CursorAfter(cursor, n, e) % n == i <==> e == d
    {
      CursorAdvances(cursor, n, e);
    }
  }

  // ---------------------------------------------------------------- the code

  function KindQueues(batches: seq<LaneQueues>, kind: QueueKind): (r: seq<seq<QueuedLog>>)
    ensures |r| == |batches|
  {
    seq(|batches|, i requires 0 <= i < |batches| => batches[i].Of(kind))
  }

  /** Drains one kind of queue from every swapped-out lane, in place, onto `output`. */
  method DrainBatches(batches: array<LaneQueues>, kind: QueueKind,
                      output: seq<QueuedLog>) returns (result: seq<QueuedLog>)
    modifies batches
    ensures result == output + Interleave(KindQueues(old(batches[..]), kind))
    ensures forall i :: 0 <= i < batches.Length ==> batches[i] == old(batches[i]).With(kind, [])
  {
    result := output;
    ghost var now := KindQueues(batches[..], kind);
    ghost var start := now;
    while true
      invariant now == KindQueues(batches[..], kind)
      invariant result + Interleave(now) == output + Interleave(start)
      invariant forall i :: 0 <= i < batches.Length ==> batches[i] == old(batches[i]).With(kind, now[i])
      decreases |Concat(now)|
    {
      ghost var before, result0 := now, result;
      var drained := DrainPass(batches, kind);
      result := result + drained;
      now := AfterPass(before);
      assert now == KindQueues(batches[..], kind);
      PassShrinks(before);
      OnePassEmpty(before);
      if |drained| == 0 {
        return;
      }
      assert result0 + Interleave(before) == result + Interleave(now);
    }
  }

  /** One pass of the inner loop: at most a quantum leaves the front of each lane. */
  method DrainPass(batches: array<LaneQueues>, kind: QueueKind) returns (drained: seq<QueuedLog>)
    modifies batches
    ensures drained == OnePass(KindQueues(old(batches[..]), kind))
    ensures forall i :: 0 <= i < batches.Length ==>
      var q := old(batches[i]).Of(kind);
      batches[i] == old(batches[i]).With(kind, q[Quantum(q)..])
  {
    drained := [];
    ghost var before := KindQueues(batches[..], kind);
    for i := 0 to batches.Length
      invariant drained == OnePass(before[..i])
      invariant forall j :: i <= j < batches.Length ==> batches[j] == old(batches[j])
      invariant forall j :: 0 <= j < i ==>
        var q := old(batches[j]).Of(kind);
        batches[j] == old(batches[j]).With(kind, q[Quantum(q)..])
    {
      var source := batches[i].Of(kind);
      var take := Quantum(source);
      drained := drained + source[..take];
      batches[i] := batches[i].With(kind, source[take..]);
      assert before[..i + 1][..i] == before[..i] && before[i] == source;
    }
    assert before[..batches.Length] == before;
  }
}
