/** DeadLetterQueue: failed messages, sent back to their source queues by position. */
module DeadLetterQueues {
  import opened BinaryHeap
  import opened Collections
  import opened Messages
  import opened MultiLevelQueues
  import opened QueueManagers

  // ---------- requeueing, on values ----------

  datatype Dead<+M> = Dead(message: M, source: string, reason: string, failedAt: int, retryCount: int)

  /** The result of a batch: the queues, the items left, how many went back, and the messages whose
      retry count was reset on the way. */
  datatype Batch<M(==)> = Batch(qs: Levels<M>, items: seq<Dead<M>>, count: nat, touched: set<M>)

  function Cut<T>(s: seq<T>, i: nat): (r: seq<T>)
    requires i < |s|
    ensures |r| == |s| - 1
  {
    s[..i] + s[i + 1..]
  }

  /** One position of a batch: out of range is skipped, a refused push leaves the item in place. */
  function RequeueAt<M(==)>(b: Batch<M>, index: int, rank: Rank): Batch<M> {
    if index < 0 || index >= |b.items| then b
    else
      var item := b.items[index];
      var (r, qs) := PushLevel(b.qs, item.source, Entry(item.message, rank));
      if r.Err? then b.(touched := b.touched + {item.message})
      else Batch(qs, Cut(b.items, index), b.count + 1, b.touched + {item.message})
  }

  /** The positions in the order given; ranks[k] is the rank the k-th push gets. */
  function Requeues<M(==)>(qs: Levels<M>, items: seq<Dead<M>>, idx: seq<int>, ranks: seq<Rank>): Batch<M>
    requires |ranks| == |idx|
    decreases |idx|
  {
    if idx == [] then Batch(qs, items, 0, {})
    else
      var n := |idx| - 1;
      RequeueAt(Requeues(qs, items, idx[..n], ranks[..n]), idx[n], ranks[n])
  }

  ghost predicate Descending(s: seq<int>) {
    forall i, j :: 0 <= i < j < |s| ==> s[i] >= s[j]
  }

  ghost predicate StrictlyDescending(s: seq<int>) {
    forall i, j :: 0 <= i < j < |s| ==> s[i] > s[j]
  }

  /** The items at the positions not listed, in order. */
  function Without<T>(items: seq<T>, gone: set<int>): (r: seq<T>)
    ensures |r| <= |items|
  {
    if items == [] then [] else
    var n := |items| - 1;
    Without(items[..n], gone) + (if n in gone then [] else [items[n]])
  }

  /** The positions whose item went back, each judged on the item originally there. */
  function Gone<M(==)>(qs: Levels<M>, items: seq<Dead<M>>, idx: seq<int>, ranks: seq<Rank>): (g: set<int>)
    requires |ranks| == |idx|
    ensures forall i <- g :: 0 <= i < |items| && i in idx
    decreases |idx|
  {
    if idx == [] then {} else
    var n := |idx| - 1;
    var before := Gone(qs, items, idx[..n], ranks[..n]);
    var now := Requeues(qs, items, idx[..n], ranks[..n]).qs;
    var i := idx[n];
    if 0 <= i < |items| && PushLevel(now, items[i].source, Entry(items[i].message, ranks[n])).0.Ok?
    then before + {i} else before
  }

  lemma {:induction false} WithoutNone<T>(items: seq<T>, gone: set<int>)
    requires forall i <- gone :: i >= |items|
    ensures Without(items, gone) == items
  {
    if items != [] {
      WithoutNone(items[..|items| - 1], gone);
    }
  }

  /** Removing position i when only later ones are gone is cutting slot i. */
  lemma {:induction false} WithoutOneMore<T>(items: seq<T>, gone: set<int>, i: nat)
    requires i < |items| && forall j <- gone :: i < j
    ensures i < |Without(items, gone)| && Without(items, gone)[i] == items[i]
    ensures Without(items, gone + {i}) == Cut(Without(items, gone), i)
  {
    var n := |items| - 1;
    if i == n {
      WithoutNone(items[..n], gone);
      WithoutNone(items[..n], gone + {i});
    } else {
      WithoutOneMore(items[..n], gone, i);
    }
  }

  lemma {:induction false} WithoutLength<T>(items: seq<T>, gone: set<int>)
    requires forall i <- gone :: 0 <= i < |items|
    ensures |Without(items, gone)| == |items| - |gone|
  {
    if items == [] {
      assert forall i :: i !in gone;
    } else {
      var n := |items| - 1;
      WithoutLength(items[..n], gone - {n});
      WithoutSame(items[..n], gone, gone - {n});
    }
  }

  lemma {:induction false} WithoutSame<T>(items: seq<T>, a: set<int>, b: set<int>)
    requires forall i :: 0 <= i < |items| ==> (i in a <==> i in b)
    ensures Without(items, a) == Without(items, b)
  {
    if items != [] {
      WithoutSame(items[..|items| - 1], a, b);
    }
  }

  lemma DistinctStep<M>(b: Batch<M>, items: seq<Dead<M>>, gone: set<int>, i: int, rank: Rank)
    requires b.items == Without(items, gone) && b.count == |gone| && forall j <- gone :: i < j
    ensures var gone' := if 0 <= i < |items| && PushLevel(b.qs, items[i].source, Entry(items[i].message, rank)).0.Ok?
                         then gone + {i} else gone;
            var b' := RequeueAt(b, i, rank);
            b'.items == Without(items, gone') && b'.count == |gone'|
  {
    hide PushLevel;
    if 0 <= i < |items| {
      WithoutOneMore(items, gone, i);
    }
    hide Without;
  }

  lemma StrictFront(idx: seq<int>, before: set<int>)
    requires StrictlyDescending(idx) && idx != []
    requires forall j <- before :: j in idx[..|idx| - 1]
    ensures StrictlyDescending(idx[..|idx| - 1])
    ensures forall j <- before :: idx[|idx| - 1] < j
  {
  }

  /** BatchRequeue with distinct indices (in descending order, as sortIndices leaves them): exactly
      the listed items whose push succeeded are gone, the others keep their order, and the count is
      the number gone. */
  lemma {:induction false} DistinctRequeueIsExact<M>(qs: Levels<M>, items: seq<Dead<M>>, idx: seq<int>,
                                                     ranks: seq<Rank>)
    requires |ranks| == |idx| && StrictlyDescending(idx)
    ensures var b := Requeues(qs, items, idx, ranks);
            var gone := Gone(qs, items, idx, ranks);
            b.items == Without(items, gone) && b.count == |gone|
    decreases |idx|
  {
    if idx == [] {
      WithoutNone(items, {});
    } else {
      var n := |idx| - 1;
      var b, gone := Requeues(qs, items, idx[..n], ranks[..n]), Gone(qs, items, idx[..n], ranks[..n]);
      StrictFront(idx, gone);
      hide PushLevel, Without, RequeueAt, StrictlyDescending;
      DistinctRequeueIsExact(qs, items, idx[..n], ranks[..n]);
      DistinctStep(b, items, gone, idx[n], ranks[n]);
    }
  }

  /** The message at position i, if there is one. */
  function MessageAt<M(==)>(items: seq<Dead<M>>, i: int): set<M> {
    if 0 <= i < |items| then {items[i].message} else {}
  }

  lemma ResetStep<M>(b: Batch<M>, items: seq<Dead<M>>, gone: set<int>, i: int, rank: Rank)
    requires b.items == Without(items, gone) && forall j <- gone :: i < j
    ensures RequeueAt(b, i, rank).touched == b.touched + MessageAt(items, i)
  {
    hide PushLevel, Without;
    if 0 <= i < |items| {
      WithoutOneMore(items, gone, i);
    }
  }

  lemma InFrontOrLast(idx: seq<int>, i: int)
    requires idx != []
    ensures i in idx <==> i in idx[..|idx| - 1] || i == idx[|idx| - 1]
  {
    assert idx == idx[..|idx| - 1] + [idx[|idx| - 1]];
  }

  /** And the messages whose retry count was reset are those of all listed items, whether or not their push
      succeeded. */
  lemma {:induction false} DistinctAreReset<M>(qs: Levels<M>, items: seq<Dead<M>>, idx: seq<int>, ranks: seq<Rank>,
                                               m: M)
    requires |ranks| == |idx| && StrictlyDescending(idx)
    ensures m in Requeues(qs, items, idx, ranks).touched <==> exists i <- idx :: m in MessageAt(items, i)
    decreases |idx|
  {
    if idx != [] {
      var n := |idx| - 1;
      StrictFront(idx, Gone(qs, items, idx[..n], ranks[..n]));
      assert Requeues(qs, items, idx, ranks) == RequeueAt(Requeues(qs, items, idx[..n], ranks[..n]), idx[n], ranks[n]);
      hide *;
      DistinctAreReset(qs, items, idx[..n], ranks[..n], m);
      DistinctRequeueIsExact(qs, items, idx[..n], ranks[..n]);
      ResetStep(Requeues(qs, items, idx[..n], ranks[..n]), items, Gone(qs, items, idx[..n], ranks[..n]), idx[n],
                ranks[n]);
      forall i
        ensures i in idx <==> i in idx[..n] || i == idx[n]
      {
        InFrontOrLast(idx, i);
      }
    }
  }

  // ---------- conservation, for any indices ----------

  lemma CutMultiset<T>(s: seq<T>, i: nat)
    requires i < |s|
    ensures multiset(s) == multiset(Cut(s, i)) + multiset{s[i]}
  {
    assert s == s[..i] + [s[i]] + s[i + 1..];
  }

  /** How many of the items came from the named queue. */
  function CountFrom<M>(ds: seq<Dead<M>>, name: string): nat {
    if ds == [] then 0 else
    var n := |ds| - 1;
    CountFrom(ds[..n], name) + (if ds[n].source == name then 1 else 0)
  }

  /** Whatever the indices, repeated or not: the count is the number of items that left, none is lost
      or duplicated, and every queue gained as many entries as items with that source left. */
  lemma {:induction false} RequeueConserves<M>(qs: Levels<M>, items: seq<Dead<M>>, idx: seq<int>, ranks: seq<Rank>,
                                               name: string)
    returns (left: seq<Dead<M>>)
    requires |ranks| == |idx|
    ensures var b := Requeues(qs, items, idx, ranks);
            && multiset(items) == multiset(b.items) + multiset(left)
            && |left| == b.count
            && b.qs.Keys == qs.Keys
            && (name in qs ==> |b.qs[name].heap| == |qs[name].heap| + CountFrom(left, name))
    decreases |idx|
  {
    left := [];
    if idx != [] {
      var n := |idx| - 1;
      left := RequeueConserves(qs, items, idx[..n], ranks[..n], name);
      var b := Requeues(qs, items, idx[..n], ranks[..n]);
      var i := idx[n];
      if 0 <= i < |b.items| {
        var item := b.items[i];
        if PushLevel(b.qs, item.source, Entry(item.message, ranks[n])).0.Ok? {
          CutMultiset(b.items, i);
          assert (left + [item])[..|left|] == left;
          left := left + [item];
        }
      }
    }
  }

  // ---------- repeated indices ----------

  /** Every push of the batch finds its queue there with room to spare. */
  ghost predicate RoomForAll<M>(qs: Levels<M>, items: seq<Dead<M>>, n: nat) {
    forall d <- items :: d.source in qs && RoomFor(qs[d.source], n)
  }

  predicate RoomFor<M>(level: Level<M>, n: nat) {
    level.maxSize <= 0 || |level.heap| + n <= level.maxSize
  }

  /** The positions that are listed and in range. */
  function Listed<T>(items: seq<T>, idx: seq<int>): (g: set<int>)
    ensures forall i :: i in g <==> 0 <= i < |items| && i in idx
  {
    set i | i in idx && 0 <= i < |items|
  }

  ghost predicate Unlisted<T>(items: seq<T>, idx: seq<int>, j: int) {
    j < |items| && j !in idx
  }

  /** Some position is listed twice while a later position is not listed at all. */
  ghost predicate HitsShifted<T>(items: seq<T>, idx: seq<int>) {
    exists k :: 0 < k < |idx| && RepeatHits(items, idx, k)
  }

  ghost predicate RepeatHits<T>(items: seq<T>, idx: seq<int>, k: nat)
    requires 0 < k < |idx|
  {
    idx[k] == idx[k - 1] && 0 <= idx[k] && exists j :: idx[k] < j && Unlisted(items, idx, j)
  }

  lemma PushHasRoom<M>(qs: Levels<M>, items: seq<Dead<M>>, n: nat, d: Dead<M>, rank: Rank)
    requires RoomForAll(qs, items, n + 1) && d in items
    ensures var (r, qs') := PushLevel(qs, d.source, Entry(d.message, rank));
            r.Ok? && RoomForAll(qs', items, n)
  {
  }

  /** The lowest position processed so far. */
  function Lowest<T>(items: seq<T>, idx: seq<int>): int {
    if idx == [] then |items| else idx[|idx| - 1]
  }

  /** The items below lo are still where they were. */
  ghost predicate Intact<T>(items: seq<T>, left: seq<T>, lo: int) {
    && (lo <= |left| || |items| <= |left|)
    && forall i :: 0 <= i < lo && i < |items| ==> left[i] == items[i]
  }

  /** After a descending batch in which every push was accepted: the items below the lowest position
      are still in place; at least the listed ones have left; and exactly those, unless a repeated
      index has hit a shifted item. */
  ghost predicate BatchSoFar<M>(items: seq<Dead<M>>, idx: seq<int>, b: Batch<M>) {
    var listed := Listed(items, idx);
    && b.count + |b.items| == |items|
    && Intact(items, b.items, Lowest(items, idx))
    && (forall x <- b.items :: x in items)
    && b.count >= |listed|
    && (b.count == |listed| <==> !HitsShifted(items, idx))
    && (b.count == |listed| ==> b.items == Without(items, listed))
  }

  /** A repeated in-range position, when nothing unlisted has been touched: the slot is empty exactly
      if every later position is listed. */
  lemma RepeatFindsSlot<T>(items: seq<T>, idx: seq<int>, v: int)
    requires Descending(idx) && idx != [] && Lowest(items, idx) == v && 0 <= v < |items|
    ensures var listed := Listed(items, idx);
            |items| - |listed| >= v &&
            (|items| - |listed| > v <==> exists j :: v < j && Unlisted(items, idx, j))
  {
    var listed := Listed(items, idx);
    var range := Interval(v, |items|);
    assert listed <= range;
    SubsetSize(listed, range);
    if j :| v < j && Unlisted(items, idx, j) {
      assert j in range && j !in listed;
    } else {
      forall i <- range
        ensures i in listed
      {
        assert i == v || !Unlisted(items, idx, i);
      }
      assert listed == range;
    }
  }

  lemma RepeatHitsStep<T>(items: seq<T>, idx: seq<int>, n: nat, k: nat)
    requires Descending(idx) && 0 < k < n <= |idx|
    ensures RepeatHits(items, idx, k) <==> RepeatHits(items, idx[..n], k)
  {
    var front := idx[..n];
    assert forall j :: idx[k] < j ==> (j in idx <==> j in front);
    assert forall j :: idx[k] < j ==> (Unlisted(items, idx, j) <==> Unlisted(items, front, j));
  }

  lemma HitsShiftedStep<T>(items: seq<T>, idx: seq<int>)
    requires Descending(idx) && idx != []
    ensures var n := |idx| - 1;
            HitsShifted(items, idx) <==> HitsShifted(items, idx[..n]) || (n > 0 && RepeatHits(items, idx, n))
  {
    var n := |idx| - 1;
    forall k | 0 < k < n
      ensures RepeatHits(items, idx, k) <==> RepeatHits(items, idx[..n], k)
    {
      RepeatHitsStep(items, idx, n, k);
    }
    hide RepeatHits;
  }

  lemma BatchStep<M>(items: seq<Dead<M>>, idx: seq<int>, b: Batch<M>, rank: Rank)
    requires Descending(idx) && idx != []
    requires BatchSoFar(items, idx[..|idx| - 1], b)
    requires forall d <- items :: PushLevel(b.qs, d.source, Entry(d.message, rank)).0.Ok?
    ensures BatchSoFar(items, idx, RequeueAt(b, idx[|idx| - 1], rank))
  {
    hide PushLevel, BatchSoFar;
    var n := |idx| - 1;
    HitsShiftedStep(items, idx);
    if idx[n] < 0 || idx[n] >= |items| {
      OutOfRangeStep(items, idx, b, rank);
    } else if n > 0 && idx[n] == idx[n - 1] {
      RepeatStep(items, idx, b, rank);
    } else {
      NewStep(items, idx, b, rank);
    }
  }

  lemma OutOfRangeStep<M>(items: seq<Dead<M>>, idx: seq<int>, b: Batch<M>, rank: Rank)
    requires Descending(idx) && idx != [] && !(0 <= idx[|idx| - 1] < |items|)
    requires BatchSoFar(items, idx[..|idx| - 1], b)
    requires HitsShifted(items, idx) <==> HitsShifted(items, idx[..|idx| - 1])
                                          || (|idx| > 1 && RepeatHits(items, idx, |idx| - 1))
    ensures BatchSoFar(items, idx, RequeueAt(b, idx[|idx| - 1], rank))
  {
    hide PushLevel, HitsShifted, Without, RepeatHits, Listed, Intact, Cut, Descending;
    var n := |idx| - 1;
    OutOfRangeFacts(items, idx);
    IntactBelow(items, b.items, Lowest(items, idx[..n]), Lowest(items, idx));
  }

  lemma OutOfRangeFacts<T>(items: seq<T>, idx: seq<int>)
    requires Descending(idx) && idx != [] && !(0 <= idx[|idx| - 1] < |items|)
    ensures Listed(items, idx) == Listed(items, idx[..|idx| - 1])
    ensures !(|idx| > 1 && RepeatHits(items, idx, |idx| - 1))
    ensures Lowest(items, idx) <= Lowest(items, idx[..|idx| - 1]) || |items| <= Lowest(items, idx[..|idx| - 1])
  {
    var n := |idx| - 1;
    assert idx == idx[..n] + [idx[n]];
    assert n > 0 ==> idx[n - 1] >= idx[n];
  }

  lemma IntactBelow<T>(items: seq<T>, left: seq<T>, lo: int, lo': int)
    requires Intact(items, left, lo) && (lo' <= lo || |items| <= lo)
    ensures Intact(items, left, lo')
  {
  }

  /** The slot cut is the item's own slot, which was still in place. */
  lemma CutOwnSlot<T>(items: seq<T>, left: seq<T>, v: nat, lowest: int)
    requires v < |items| && v < lowest && Intact(items, left, lowest)
    requires forall x <- left :: x in items
    ensures v < |left| && left[v] == items[v]
    ensures Intact(items, Cut(left, v), v)
    ensures forall x <- Cut(left, v) :: x in items
  {
  }

  lemma NewStep<M>(items: seq<Dead<M>>, idx: seq<int>, b: Batch<M>, rank: Rank)
    requires Descending(idx) && idx != [] && 0 <= idx[|idx| - 1] < |items|
    requires |idx| > 1 ==> idx[|idx| - 1] < idx[|idx| - 2]
    requires BatchSoFar(items, idx[..|idx| - 1], b)
    requires forall d <- items :: PushLevel(b.qs, d.source, Entry(d.message, rank)).0.Ok?
    requires HitsShifted(items, idx) <==> HitsShifted(items, idx[..|idx| - 1])
                                          || (|idx| > 1 && RepeatHits(items, idx, |idx| - 1))
    ensures BatchSoFar(items, idx, RequeueAt(b, idx[|idx| - 1], rank))
  {
    hide PushLevel, HitsShifted, Without, RepeatHits, Intact, Cut;
    var n := |idx| - 1;
    var v := idx[n];
    var listed := Listed(items, idx[..n]);
    ListedMore(items, idx);
    WithoutOneMore(items, listed, v);
    CutOwnSlot(items, b.items, v, Lowest(items, idx[..n]));
    var d := b.items[v];
    assert PushLevel(b.qs, d.source, Entry(d.message, rank)).0.Ok?;
    NoRepeat(items, idx);
  }

  lemma ListedMore<T>(items: seq<T>, idx: seq<int>)
    requires Descending(idx) && idx != [] && 0 <= idx[|idx| - 1] < |items|
    requires |idx| > 1 ==> idx[|idx| - 1] < idx[|idx| - 2]
    ensures var v, listed := idx[|idx| - 1], Listed(items, idx[..|idx| - 1]);
            && Listed(items, idx) == listed + {v}
            && (forall j <- listed :: v < j)
            && |Listed(items, idx)| == |listed| + 1
            && v < Lowest(items, idx[..|idx| - 1])
  {
    var front, v := idx[..|idx| - 1], idx[|idx| - 1];
    assert idx == front + [v];
    AboveLast(front, v);
    ListedNext(items, front, v);
    hide *;
    forall j <- Listed(items, front)
      ensures v < j
    {
      assert j in front;
    }
    assert front != [] ==> front[|front| - 1] > v;
    LowestNext(items, front, v);
  }

  lemma AboveLast(front: seq<int>, v: int)
    requires Descending(front + [v]) && (front != [] ==> v < front[|front| - 1])
    ensures forall j :: j in front ==> v < j
  {
    forall j | j in front
      ensures v < j
    {
      var i :| 0 <= i < |front| && front[i] == j;
      assert i < |front| - 1 ==> (front + [v])[i] >= (front + [v])[|front| - 1];
    }
  }

  lemma ListedNext<T>(items: seq<T>, front: seq<int>, v: int)
    requires 0 <= v < |items|
    ensures Listed(items, front + [v]) == Listed(items, front) + {v}
  {
  }

  lemma LowestNext<T>(items: seq<T>, front: seq<int>, v: int)
    requires v < |items| && (front != [] ==> v < front[|front| - 1])
    ensures v < Lowest(items, front)
  {
  }

  lemma NoRepeat<T>(items: seq<T>, idx: seq<int>)
    requires idx != [] && (|idx| > 1 ==> idx[|idx| - 1] < idx[|idx| - 2])
    ensures !(|idx| > 1 && RepeatHits(items, idx, |idx| - 1))
  {
  }

  lemma RepeatStep<M>(items: seq<Dead<M>>, idx: seq<int>, b: Batch<M>, rank: Rank)
    requires Descending(idx) && |idx| > 1 && 0 <= idx[|idx| - 1] == idx[|idx| - 2] < |items|
    requires BatchSoFar(items, idx[..|idx| - 1], b)
    requires forall d <- items :: PushLevel(b.qs, d.source, Entry(d.message, rank)).0.Ok?
    requires HitsShifted(items, idx) <==> HitsShifted(items, idx[..|idx| - 1]) || RepeatHits(items, idx, |idx| - 1)
    ensures BatchSoFar(items, idx, RequeueAt(b, idx[|idx| - 1], rank))
  {
    hide PushLevel, HitsShifted, Without, RepeatHits;
    var n := |idx| - 1;
    var v := idx[n];
    assert idx == idx[..n] + [v];
    assert Listed(items, idx) == Listed(items, idx[..n]);
    RepeatFindsSlot(items, idx[..n], v);
    RepeatHitsIs(items, idx);
    if v < |b.items| {
      assert b.items[v] in b.items;
      CutAbove(items, b.items, v);
    }
  }

  lemma CutAbove<T>(items: seq<T>, left: seq<T>, v: nat)
    requires v < |left| && Intact(items, left, v) && forall x <- left :: x in items
    ensures Intact(items, Cut(left, v), v)
    ensures forall x <- Cut(left, v) :: x in items
  {
  }

  lemma RepeatHitsIs<T>(items: seq<T>, idx: seq<int>)
    requires Descending(idx) && |idx| > 1 && 0 <= idx[|idx| - 1] == idx[|idx| - 2]
    ensures var n := |idx| - 1;
            RepeatHits(items, idx, n) <==> exists j :: idx[n] < j && Unlisted(items, idx[..n], j)
  {
    var n := |idx| - 1;
    assert idx == idx[..n] + [idx[n]];
    assert forall j :: idx[n] < j ==> (Unlisted(items, idx, j) <==> Unlisted(items, idx[..n], j));
  }

  lemma {:induction false} BatchRuns<M>(qs: Levels<M>, items: seq<Dead<M>>, idx: seq<int>, ranks: seq<Rank>, n: nat)
    requires |ranks| == |idx| && Descending(idx) && RoomForAll(qs, items, |idx| + n)
    ensures var b := Requeues(qs, items, idx, ranks);
            BatchSoFar(items, idx, b) && RoomForAll(b.qs, items, n)
    decreases |idx|
  {
    if idx == [] {
      assert Listed(items, idx) == {};
      WithoutNone(items, {});
    } else {
      var k := |idx| - 1;
      BatchRuns(qs, items, idx[..k], ranks[..k], n + 1);
      var b := Requeues(qs, items, idx[..k], ranks[..k]);
      forall d <- items
        ensures PushLevel(b.qs, d.source, Entry(d.message, ranks[k])).0.Ok?
      {
        PushHasRoom(b.qs, items, n, d, ranks[k]);
      }
      BatchStep(items, idx, b, ranks[k]);
      RoomStays(items, idx[..k], b, idx[k], ranks[k], n);
    }
  }

  lemma RoomStays<M>(items: seq<Dead<M>>, idx: seq<int>, b: Batch<M>, i: int, rank: Rank, n: nat)
    requires BatchSoFar(items, idx, b) && RoomForAll(b.qs, items, n + 1)
    ensures RoomForAll(RequeueAt(b, i, rank).qs, items, n)
  {
    hide PushLevel;
    if 0 <= i < |b.items| {
      assert b.items[i] in b.items;
      PushHasRoom(b.qs, items, n, b.items[i], rank);
    }
  }

  /** With room for every push, a batch in descending order removes exactly the listed items if and
      only if no repeated index has an unlisted position after it: otherwise the repeat hits an item
      that has moved into the slot, and requeues one nobody asked for. */
  lemma RepeatsAreExactIff<M>(qs: Levels<M>, items: seq<Dead<M>>, idx: seq<int>, ranks: seq<Rank>)
    requires |ranks| == |idx| && Descending(idx) && RoomForAll(qs, items, |idx|)
    ensures Requeues(qs, items, idx, ranks).items == Without(items, Listed(items, idx)) <==> !HitsShifted(items, idx)
  {
    BatchRuns(qs, items, idx, ranks, 0);
    WithoutLength(items, Listed(items, idx));
  }

  // ---------- with or without room ----------

  /** Slot p holds the item of some position from p on that is not gone; cutting the slot removes it. */
  lemma {:induction false} SlotOf<T>(items: seq<T>, gone: set<int>, p: nat) returns (w: nat)
    requires p < |Without(items, gone)|
    ensures p <= w < |items| && w !in gone && Without(items, gone)[p] == items[w]
    ensures Without(items, gone + {w}) == Cut(Without(items, gone), p)
  {
    var n := |items| - 1;
    var front := Without(items[..n], gone);
    if p < |front| {
      w := SlotOf(items[..n], gone, p);
    } else {
      w := n;
      WithoutSame(items[..n], gone, gone + {n});
    }
  }

  lemma ListedGrows<T>(items: seq<T>, idx: seq<int>)
    requires idx != []
    ensures Listed(items, idx[..|idx| - 1]) <= Listed(items, idx)
  {
  }

  lemma LastAgain(idx: seq<int>, v: int, before: set<int>)
    requires Descending(idx) && idx != [] && v == idx[|idx| - 1]
    requires forall j <- before :: j in idx[..|idx| - 1]
    ensures forall j <- before :: v <= j
    ensures v in idx[..|idx| - 1] ==> |idx| > 1 && idx[|idx| - 2] == v
  {
  }

  /** Which position's item sits in slot v when only listed ones are gone: one that is listed too. */
  lemma ListedSlot<T>(items: seq<T>, idx: seq<int>, gone: set<int>) returns (w: nat)
    requires Descending(idx) && idx != [] && !(|idx| > 1 && RepeatHits(items, idx, |idx| - 1))
    requires gone <= Listed(items, idx[..|idx| - 1])
    requires 0 <= idx[|idx| - 1] < |Without(items, gone)|
    ensures w in Listed(items, idx) && w !in gone && Without(items, gone)[idx[|idx| - 1]] == items[w]
    ensures Without(items, gone + {w}) == Cut(Without(items, gone), idx[|idx| - 1])
  {
    var v := idx[|idx| - 1];
    LastAgain(idx, v, gone);
    hide Without, Descending, Cut;
    if v in gone {
      w := SlotOf(items, gone, v);
      assert v < w && !Unlisted(items, idx, w);
    } else {
      w := v;
      WithoutOneMore(items, gone, v);
    }
  }

  lemma StrangerStep<M>(items: seq<Dead<M>>, idx: seq<int>, b: Batch<M>, rank: Rank, gone: set<int>)
    returns (gone': set<int>)
    requires Descending(idx) && idx != [] && !(|idx| > 1 && RepeatHits(items, idx, |idx| - 1))
    requires gone <= Listed(items, idx[..|idx| - 1]) && b.items == Without(items, gone) && b.count == |gone|
    ensures var b' := RequeueAt(b, idx[|idx| - 1], rank);
            gone' <= Listed(items, idx) && b'.items == Without(items, gone') && b'.count == |gone'|
  {
    hide Descending, RepeatHits, PushLevel, Without, Listed, Cut;
    gone' := gone;
    ListedGrows(items, idx);
    var v := idx[|idx| - 1];
    if 0 <= v < |b.items| {
      var w := ListedSlot(items, idx, gone);
      if PushLevel(b.qs, b.items[v].source, Entry(b.items[v].message, rank)).0.Ok? {
        gone' := gone + {w};
      }
    }
  }

  lemma DescendingFront(idx: seq<int>)
    requires Descending(idx) && idx != []
    ensures Descending(idx[..|idx| - 1])
  {
  }

  /** Whatever room there is: if no repeated index has an unlisted position after it, only listed items
      leave, and the others keep their order. */
  lemma {:induction false} OnlyListedLeave<M>(qs: Levels<M>, items: seq<Dead<M>>, idx: seq<int>, ranks: seq<Rank>)
    returns (gone: set<int>)
    requires |ranks| == |idx| && Descending(idx) && !HitsShifted(items, idx)
    ensures var b := Requeues(qs, items, idx, ranks);
            gone <= Listed(items, idx) && b.items == Without(items, gone) && b.count == |gone|
    decreases |idx|
  {
    if idx == [] {
      gone := {};
      WithoutNone(items, {});
    } else {
      HitsShiftedStep(items, idx);
      DescendingFront(idx);
      hide HitsShifted, Descending, RepeatHits, RequeueAt, Listed, Without;
      var n := |idx| - 1;
      gone := OnlyListedLeave(qs, items, idx[..n], ranks[..n]);
      gone := StrangerStep(items, idx, Requeues(qs, items, idx[..n], ranks[..n]), ranks[n], gone);
    }
  }

  // ---------- sortIndices ----------

  /** The exchange sort of the index list, from high to low. */
  method SortIndices(a: array<int>)
    modifies a
    ensures Descending(a[..])
    ensures multiset(a[..]) == multiset(old(a[..]))
  {
    var i := 0;
    while i < a.Length
      invariant 0 <= i <= a.Length
      invariant forall p, q :: 0 <= p < i && p < q < a.Length ==> a[p] >= a[q]
      invariant multiset(a[..]) == multiset(old(a[..]))
    {
      var j := i + 1;
      while j < a.Length
        invariant i < j <= a.Length
        invariant forall p, q :: 0 <= p < i && p < q < a.Length ==> a[p] >= a[q]
        invariant forall q :: i < q < j ==> a[i] >= a[q]
        invariant multiset(a[..]) == multiset(old(a[..]))
      {
        if a[i] < a[j] {
          ghost var before := a[..];
          a[i], a[j] := a[j], a[i];
          assert a[..] == before[i := before[j]][j := before[i]];
        }
        j := j + 1;
      }
      i := i + 1;
    }
  }

  /** Sorting distinct indices leaves them strictly descending, and the sorted order is unique. */
  lemma SortedDistinctIsStrict(s: seq<int>, t: seq<int>)
    requires Descending(s) && multiset(s) == multiset(t)
    requires forall i, j :: 0 <= i < j < |t| ==> t[i] != t[j]
    ensures StrictlyDescending(s)
  {
    forall i, j | 0 <= i < j < |s|
      ensures s[i] > s[j]
    {
      if s[i] == s[j] {
        OccursTwice(s, i, j);
        assert s[i] in multiset(t);
        var k :| 0 <= k < |t| && t[k] == s[i];
        OccursOnce(t, k);
        assert false;
      }
    }
  }

  lemma {:induction false} TwoPositions(s: seq<int>, v: int) returns (p: nat, q: nat)
    requires multiset(s)[v] >= 2
    ensures p < q < |s| && s[p] == s[q] == v
  {
    var n := |s| - 1;
    assert s == s[..n] + [s[n]];
    if multiset(s[..n])[v] >= 2 {
      p, q := TwoPositions(s[..n], v);
    } else {
      assert v in s[..n];
      p :| 0 <= p < n && s[p] == v;
      q := n;
    }
  }

  /** Some in-range index is given twice while a later position is not given at all. */
  ghost predicate RepeatsBelowUnlisted<T>(items: seq<T>, given: seq<int>) {
    exists v, j :: multiset(given)[v] >= 2 && 0 <= v < j < |items| && j !in given
  }

  lemma HitsShiftedMeans<T>(items: seq<T>, given: seq<int>, sorted: seq<int>)
    requires Descending(sorted) && multiset(sorted) == multiset(given)
    ensures HitsShifted(items, sorted) <==> RepeatsBelowUnlisted(items, given)
  {
    assert forall j :: j in given <==> j in multiset(given);
    assert forall j :: j in sorted <==> j in multiset(sorted);
    if k :| 0 < k < |sorted| && RepeatHits(items, sorted, k) {
      OccursTwice(sorted, k - 1, k);
      var j :| sorted[k] < j && Unlisted(items, sorted, j);
      assert multiset(given)[sorted[k]] >= 2 && 0 <= sorted[k] < j < |items| && j !in given;
    }
    if v, j :| multiset(given)[v] >= 2 && 0 <= v < j < |items| && j !in given {
      var p, q := TwoPositions(sorted, v);
      assert sorted[p] >= sorted[p + 1] >= sorted[q];
      assert Unlisted(items, sorted, j);
      assert RepeatHits(items, sorted, p + 1);
    }
  }

  /** What a caller may expect of any list of indices, sorted or not: with room for every push exactly the
      listed items go back if and only if no in-range index is given twice with a later position not given. */
  lemma CallersIndicesAreExactIff<M>(qs: Levels<M>, items: seq<Dead<M>>, given: seq<int>, sorted: seq<int>,
                                     ranks: seq<Rank>)
    requires |ranks| == |sorted| && Descending(sorted) && multiset(sorted) == multiset(given)
    requires RoomForAll(qs, items, |given|)
    ensures Requeues(qs, items, sorted, ranks).items == Without(items, Listed(items, given))
            <==> !RepeatsBelowUnlisted(items, given)
  {
    assert |sorted| == |multiset(sorted)| == |multiset(given)| == |given|;
    RepeatsAreExactIff(qs, items, sorted, ranks);
    HitsShiftedMeans(items, given, sorted);
    ListedSame(items, given, sorted);
    hide Requeues, Without;
  }

  lemma ListedSame<T>(items: seq<T>, given: seq<int>, sorted: seq<int>)
    requires multiset(sorted) == multiset(given)
    ensures Listed(items, sorted) == Listed(items, given)
  {
    assert forall j :: j in given <==> j in multiset(given);
    assert forall j :: j in sorted <==> j in multiset(sorted);
  }

  /** And whatever room there is, nothing that was not asked for leaves unless such an index is given. */
  lemma CallersStrangersStay<M>(qs: Levels<M>, items: seq<Dead<M>>, given: seq<int>, sorted: seq<int>, ranks: seq<Rank>)
    returns (gone: set<int>)
    requires |ranks| == |sorted| && Descending(sorted) && multiset(sorted) == multiset(given)
    requires !RepeatsBelowUnlisted(items, given)
    ensures var b := Requeues(qs, items, sorted, ranks);
            gone <= Listed(items, given) && b.items == Without(items, gone) && b.count == |gone|
  {
    HitsShiftedMeans(items, given, sorted);
    ListedSame(items, given, sorted);
    hide *;
    gone := OnlyListedLeave(qs, items, sorted, ranks);
  }

  /** And of distinct indices, whatever room there is: exactly those of the listed items go back whose push
      was accepted, the others keep their order, and the count is right. */
  lemma CallersDistinctIndices<M>(qs: Levels<M>, items: seq<Dead<M>>, given: seq<int>, sorted: seq<int>,
                                  ranks: seq<Rank>)
    requires |ranks| == |sorted| && Descending(sorted) && multiset(sorted) == multiset(given)
    requires forall i, j :: 0 <= i < j < |given| ==> given[i] != given[j]
    ensures var b, gone := Requeues(qs, items, sorted, ranks), Gone(qs, items, sorted, ranks);
            && b.items == Without(items, gone) && b.count == |gone|
            && forall i <- gone :: 0 <= i < |items| && i in given
  {
    SortedDistinctIsStrict(sorted, given);
    DistinctRequeueIsExact(qs, items, sorted, ranks);
    hide Requeues, Gone, Without;
    forall i <- Gone(qs, items, sorted, ranks)
      ensures i in given
    {
      assert i in multiset(sorted);
    }
  }

  /** A concrete case: index 0 given twice, of two items, requeues both. */
  lemma RepeatTakesTheNext<M>(a: M, b: M, now: int) returns (qs: Levels<M>, items: seq<Dead<M>>, ranks: seq<Rank>)
    ensures RoomForAll(qs, items, 2) && |ranks| == 2
    ensures items == [Dead(a, "q", "", 0, 0), Dead(b, "q", "", 0, 0)]
    ensures Listed(items, [0, 0]) == {0} && Requeues(qs, items, [0, 0], ranks).items == []
  {
    qs := map["q" := EmptyLevel(0)];
    items := [Dead(a, "q", "", 0, 0), Dead(b, "q", "", 0, 0)];
    ranks := [Rank(0, now), Rank(0, now)];
    hide HeapPush;
    assert [0, 0][..1] == [0] && [0][..0] == [] && ranks[..1] == [Rank(0, now)] && [Rank(0, now)][..0] == [];
    assert Requeues(qs, items, [0], [Rank(0, now)]).items == [items[1]];
    assert Requeues(qs, items, [0, 0], ranks) == RequeueAt(Requeues(qs, items, [0], [Rank(0, now)]), 0, Rank(0, now));
  }

  // ---------- the queue in place ----------

  class DeadLetterQueue {
    const maxSize: int
    var items: seq<Dead<Message>>

    constructor (maxSize: int)
      ensures items == [] && this.maxSize == maxSize
    {
      this.maxSize, items := maxSize, [];
    }

    method Push(message: Message, reason: string, source: string, now: int) returns (r: Result<()>)
      modifies this
      ensures maxSize > 0 && |old(items)| >= maxSize ==> r == Err(QueueFull) && items == old(items)
      ensures !(maxSize > 0 && |old(items)| >= maxSize) ==>
                r == Ok(()) && items == old(items) + [Dead(message, source, reason, now, message.retryCount)]
    {
      if maxSize > 0 && |items| >= maxSize {
        return Err(QueueFull);
      }
      items := items + [Dead(message, source, reason, now, message.retryCount)];
      r := Ok(());
    }

    method Remove(index: int) returns (r: Result<()>)
      modifies this
      ensures 0 <= index < |old(items)| ==> r == Ok(()) && items == Cut(old(items), index)
      ensures !(0 <= index < |old(items)|) ==> r == Err(IndexOutOfRange) && items == old(items)
    {
      if index < 0 || index >= |items| {
        return Err(IndexOutOfRange);
      }
      items := items[..index] + items[index + 1..];
      r := Ok(());
    }

    /** What requeueing makes of an item's message: no retries used, and the priority rules applied
        unless its source queue is gone. */
    ghost function Reset(manager: QueueManager, item: Dead<Message>): MessageData
      reads manager.queues, item.message
    {
      var d := item.message.Data().(retryCount := 0);
      if item.source in manager.queues.view then d.(priority := RulePriority(manager.rules, d)) else d
    }

    /** One item back to its source queue.  Its retry count is reset even when the push is refused. */
    method Requeue(index: int, manager: QueueManager, now: int) returns (r: Result<()>, ghost rank: Rank)
      requires manager.Valid()
      modifies this, manager.queues, manager.queues.own
      modifies if 0 <= index < |items| then {items[index].message} else {}
      ensures manager.Valid() && fresh(manager.queues.own - old(manager.queues.own))
      ensures !(0 <= index < |old(items)|) ==>
                && r == Err(IndexOutOfRange) && items == old(items) && manager.queues.view == old(manager.queues.view)
      ensures 0 <= index < |old(items)| ==>
                var item := old(items)[index];
                && item.message.Data() == old(Reset(manager, item))
                && rank == Rank(item.message.priority, now)
      ensures 0 <= index < |old(items)| ==>
                var item := old(items)[index];
                var b := RequeueAt(Batch(old(manager.queues.view), old(items), 0, {}), index, rank);
                && manager.queues.view == b.qs && items == b.items
                && r == PushLevel(old(manager.queues.view), item.source, Entry(item.message, rank)).0
    {
      hide PushLevel, QueueManager.Valid, RulePriority;
      rank := Rank(0, now);
      if index < 0 || index >= |items| {
        return Err(IndexOutOfRange), rank;
      }
      var item := items[index];
      item.message.retryCount := 0;
      r := manager.PushMessage(item.source, item.message, now);
      rank := Rank(item.message.priority, now);
      RefusedPushKeeps(old(manager.queues.view), item.source, Entry(item.message, rank));
      if r.Err? {
        return;
      }
      items := items[..index] + items[index + 1..];
    }

    /** The state after part of a batch: b describes the queues and the items, and of the messages in
        all exactly the touched ones have been reset; data is what the messages were before. */
    ghost predicate After(manager: QueueManager, b: Batch<Message>, all: seq<Dead<Message>>,
                          data: map<Message, MessageData>)
      reads this, manager, manager.queues, manager.queues.own, set d | d in all :: d.message
    {
      && manager.Valid()
      && manager.queues.view == b.qs && items == b.items
      && (forall x <- items :: x in all)
      && forall d <- all ::
           && d.message in data
           && if d.message in b.touched then d.message.retryCount == 0 else d.message.Data() == data[d.message]
    }

    method RequeueNext(index: int, manager: QueueManager, now: int, ghost b: Batch<Message>,
                       ghost all: seq<Dead<Message>>, ghost data: map<Message, MessageData>)
      returns (r: Result<()>, ghost rank: Rank)
      requires After(manager, b, all, data)
      modifies this, manager.queues, manager.queues.own, set d | d in all :: d.message
      ensures After(manager, RequeueAt(b, index, rank), all, data)
      ensures fresh(manager.queues.own - old(manager.queues.own))
      ensures RequeueAt(b, index, rank).count == if r.Ok? then b.count + 1 else b.count
    {
      hide PushLevel, MultiLevelQueue.Valid;
      assert 0 <= index < |items| ==> items[index] in items;
      r, rank := Requeue(index, manager, now);
    }

    /** The loop of BatchRequeue, over the sorted indices. */
    method RequeueInOrder(idx: seq<int>, manager: QueueManager, times: seq<int>, ghost qs: Levels<Message>,
                          ghost all: seq<Dead<Message>>, ghost data: map<Message, MessageData>)
      returns (count: int, ghost ranks: seq<Rank>)
      requires |times| == |idx| && After(manager, Batch(qs, all, 0, {}), all, data)
      modifies this, manager.queues, manager.queues.own, set d | d in all :: d.message
      ensures |ranks| == |idx| && After(manager, Requeues(qs, all, idx, ranks), all, data)
      ensures count == Requeues(qs, all, idx, ranks).count
      ensures fresh(manager.queues.own - old(manager.queues.own))
    {
      ranks, count := [], 0;
      ghost var b := Batch(qs, all, 0, {});
      hide After, RequeueAt;
      for k := 0 to |idx|
        invariant After(manager, b, all, data) && fresh(manager.queues.own - old(manager.queues.own))
        invariant |ranks| == k
        invariant b == Requeues(qs, all, idx[..k], ranks) && count == b.count
      {
        var r;
        ghost var rank;
        r, rank := RequeueNext(idx[k], manager, times[k], b, all, data);
        assert idx[..k + 1][..k] == idx[..k] && (ranks + [rank])[..k] == ranks;
        b, ranks := RequeueAt(b, idx[k], rank), ranks + [rank];
        if r.Ok? {
          count := count + 1;
        }
      }
      assert idx[..|idx|] == idx;
    }

    /** Many items back, by position.  The caller's index list is left sorted from high to low.  The
        ghost result gives the rank each push was made with. */
    method BatchRequeue(indices: array<int>, manager: QueueManager, times: seq<int>)
      returns (count: int, ghost ranks: seq<Rank>)
      requires manager.Valid() && |times| == indices.Length
      modifies this, indices, manager.queues, manager.queues.own, set d | d in items :: d.message
      ensures manager.Valid() && fresh(manager.queues.own - old(manager.queues.own))
      ensures Descending(indices[..]) && multiset(indices[..]) == multiset(old(indices[..]))
      ensures |ranks| == indices.Length
      ensures var b := Requeues(old(manager.queues.view), old(items), indices[..], ranks);
              && manager.queues.view == b.qs && items == b.items && count == b.count
              && forall d <- old(items) ::
                   if d.message in b.touched then d.message.retryCount == 0
                   else d.message.Data() == old(d.message.Data())
    {
      ranks := [];
      count := 0;
      if indices.Length == 0 {
        return;
      }
      hide *;
      ghost var qs, all := manager.queues.view, items;
      ghost var data := BeforeAny(manager);
      SortIndices(indices);
      count, ranks := RequeueInOrder(indices[..], manager, times, qs, all, data);
      AfterMeans(manager, Requeues(qs, all, indices[..], ranks), all, data);
    }

    lemma BeforeAny(manager: QueueManager) returns (data: map<Message, MessageData>)
      requires manager.Valid()
      ensures After(manager, Batch(manager.queues.view, items, 0, {}), items, data)
      ensures forall d <- items :: d.message in data && data[d.message] == d.message.Data()
    {
      data := map m | m in (set d | d in items :: d.message) :: m.Data();
    }

    lemma AfterMeans(manager: QueueManager, b: Batch<Message>, all: seq<Dead<Message>>, data: map<Message, MessageData>)
      requires After(manager, b, all, data)
      ensures manager.Valid() && manager.queues.view == b.qs && items == b.items
      ensures forall d <- all ::
                && d.message in data
                && if d.message in b.touched then d.message.retryCount == 0 else d.message.Data() == data[d.message]
    {
    }
  }
}
