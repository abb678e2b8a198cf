/** MultiLevelQueue: named priority heaps with a size bound and per-queue counters. */
module MultiLevelQueues {
  import opened BinaryHeap
  import opened Messages

  // ---------- the queue's state and operations, on values ----------

  datatype Stats = Stats(pending: int, processing: int, completed: int, failed: int)

  /** A queue: its bound (0 or less is none), its heap and its counters. */
  datatype Level<M> = Level(maxSize: int, heap: seq<Entry<M>>, stats: Stats)

  type Levels<M> = map<string, Level<M>>

  function EmptyLevel<M>(maxSize: int): Level<M> {
    Level(maxSize, [], Stats(0, 0, 0, 0))
  }

  /** Push on one level: refused when the level is at its bound. */
  function PushOne<M>(level: Level<M>, e: Entry<M>): (Result<()>, Level<M>) {
    if level.maxSize > 0 && |level.heap| >= level.maxSize then (Err(QueueFull), level)
    else (Ok(()), level.(heap := HeapPush(level.heap, e), stats := level.stats.(pending := level.stats.pending + 1)))
  }

  function PopOne<M>(level: Level<M>): (Result<M>, Level<M>) {
    if level.heap == [] then (Err(QueueEmpty), level)
    else
      var (e, rest) := HeapPop(level.heap);
      var st := level.stats;
      (Ok(e.payload), level.(heap := rest, stats := st.(pending := st.pending - 1, processing := st.processing + 1)))
  }

  function CompleteOne<M>(level: Level<M>): Level<M> {
    var st := level.stats;
    level.(stats := st.(processing := st.processing - 1, completed := st.completed + 1))
  }

  function FailOne<M>(level: Level<M>): Level<M> {
    var st := level.stats;
    level.(stats := st.(processing := st.processing - 1, failed := st.failed + 1))
  }

  function AddLevel<M>(levels: Levels<M>, name: string, maxSize: int): Levels<M> {
    if name in levels then levels else levels[name := EmptyLevel(maxSize)]
  }

  function PushLevel<M>(levels: Levels<M>, name: string, e: Entry<M>): (Result<()>, Levels<M>) {
    if name !in levels then (Err(QueueNotFound), levels)
    else
      var (r, level) := PushOne(levels[name], e);
      (r, levels[name := level])
  }

  /** A missing queue reads as empty here, unlike in Push and Size. */
  function PopLevel<M>(levels: Levels<M>, name: string): (Result<M>, Levels<M>) {
    if name !in levels then (Err(QueueEmpty), levels)
    else
      var (r, level) := PopOne(levels[name]);
      (r, levels[name := level])
  }

  lemma RefusedPushKeeps<M>(levels: Levels<M>, name: string, e: Entry<M>)
    ensures PushLevel(levels, name, e).0.Err? ==> PushLevel(levels, name, e).1 == levels
  {
    if name in levels {
      assert levels[name := levels[name]] == levels;
    }
  }

  function PeekLevel<M>(levels: Levels<M>, name: string): Result<M> {
    if name !in levels || levels[name].heap == [] then Err(QueueEmpty) else Ok(levels[name].heap[0].payload)
  }

  function CompleteLevel<M>(levels: Levels<M>, name: string): Levels<M> {
    if name !in levels then levels else levels[name := CompleteOne(levels[name])]
  }

  function FailLevel<M>(levels: Levels<M>, name: string): Levels<M> {
    if name !in levels then levels else levels[name := FailOne(levels[name])]
  }

  // ---------- runs ----------

  datatype Op<M> =
    | AddQueue(name: string)
    | Push(name: string, message: M, priority: int, now: int)
    | Pop(name: string)
    | Complete(name: string)
    | Fail(name: string)

  function Apply<M>(levels: Levels<M>, maxSize: int, op: Op<M>): Levels<M> {
    match op
    case AddQueue(name) => AddLevel(levels, name, maxSize)
    case Push(name, m, p, now) => PushLevel(levels, name, Entry(m, Rank(p, now))).1
    case Pop(name) => PopLevel(levels, name).1
    case Complete(name) => CompleteLevel(levels, name)
    case Fail(name) => FailLevel(levels, name)
  }

  function Run<M>(maxSize: int, ops: seq<Op<M>>): Levels<M> {
    if ops == [] then map[] else Apply(Run(maxSize, ops[..|ops| - 1]), maxSize, ops[|ops| - 1])
  }

  /** How many of the run's pushes to the named queue were accepted. */
  function Accepted<M>(maxSize: int, ops: seq<Op<M>>, name: string): nat {
    if ops == [] then 0 else
    var before := ops[..|ops| - 1];
    var op := ops[|ops| - 1];
    Accepted(maxSize, before, name) +
      if op.Push? && op.name == name
         && PushLevel(Run(maxSize, before), name, Entry(op.message, Rank(op.priority, op.now))).0.Ok? then 1 else 0
  }

  /** A heap, within its bound, of PendingCount entries. */
  ghost predicate WellFormed<M>(level: Level<M>) {
    && IsHeap(level.heap, |level.heap|)
    && level.stats.pending == |level.heap|
    && (level.maxSize > 0 ==> |level.heap| <= level.maxSize)
  }

  ghost predicate LevelOk<M>(level: Level<M>, maxSize: int, accepted: nat) {
    var Level(bound, heap, st) := level;
    && bound == maxSize
    && WellFormed(level)
    && st.pending + st.processing + st.completed + st.failed == accepted
  }

  lemma ApplyKeeps<M>(levels: Levels<M>, maxSize: int, op: Op<M>, name: string, accepted: nat)
    requires name in levels ==> LevelOk(levels[name], maxSize, accepted)
    requires name !in levels ==> accepted == 0
    ensures var pushed := op.Push? && op.name == name
                          && PushLevel(levels, name, Entry(op.message, Rank(op.priority, op.now))).0.Ok?;
            var levels' := Apply(levels, maxSize, op);
            && (name in levels ==> name in levels')
            && (name in levels' ==> LevelOk(levels'[name], maxSize, accepted + if pushed then 1 else 0))
            && (name !in levels' ==> !pushed)
  {
    if name in levels && op.name == name {
      var heap := levels[name].heap;
      if op.Push? {
        PushAdds(heap, Entry(op.message, Rank(op.priority, op.now)));
      } else if op.Pop? && heap != [] {
        PopTakesLeast(heap);
      }
    }
  }

  /** After any run every level is a heap within its bound, PendingCount is its length, and its four
      counters add up to the pushes it accepted. */
  lemma {:induction false} EveryRunKeepsLevels<M>(maxSize: int, ops: seq<Op<M>>, name: string)
    ensures var levels := Run(maxSize, ops);
            && (name in levels ==> LevelOk(levels[name], maxSize, Accepted(maxSize, ops, name)))
            && (name !in levels ==> Accepted(maxSize, ops, name) == 0)
  {
    if ops != [] {
      var before := ops[..|ops| - 1];
      EveryRunKeepsLevels(maxSize, before, name);
      ApplyKeeps(Run(maxSize, before), maxSize, ops[|ops| - 1], name, Accepted(maxSize, before, name));
    }
  }

  /** What has happened on a named queue since it was added. */
  datatype Ledger = Ledger(pushed: nat, popped: nat, completed: nat, failed: nat)

  /** What an operation on the queue adds to the account; there is none as long as the queue is not there. */
  function Entered<M>(l: Option<Ledger>, maxSize: int, op: Op<M>): Option<Ledger> {
    match l
    case None => if op.AddQueue? then Some(Ledger(0, 0, 0, 0)) else None
    case Some(Ledger(pushed, popped, completed, failed)) =>
      match op
      case AddQueue(_) => l
      case Push(_, _, _, _) =>
        if maxSize <= 0 || pushed - popped < maxSize then Some(Ledger(pushed + 1, popped, completed, failed)) else l
      case Pop(_) => if pushed > popped then Some(Ledger(pushed, popped + 1, completed, failed)) else l
      case Complete(_) => Some(Ledger(pushed, popped, completed + 1, failed))
      case Fail(_) => Some(Ledger(pushed, popped, completed, failed + 1))
  }

  /** The account of a run. */
  function Books<M>(maxSize: int, ops: seq<Op<M>>, name: string): Option<Ledger> {
    if ops == [] then None else
    var before, op := ops[..|ops| - 1], ops[|ops| - 1];
    if op.name == name then Entered(Books(maxSize, before, name), maxSize, op) else Books(maxSize, before, name)
  }

  /** The level agrees with the books. */
  ghost predicate Balanced<M>(levels: Levels<M>, name: string, l: Option<Ledger>) {
    match l
    case None => name !in levels
    case Some(Ledger(pushed, popped, completed, failed)) =>
      && name in levels
      && |levels[name].heap| == pushed - popped
      && levels[name].stats == Stats(pushed - popped, popped - completed - failed, completed, failed)
  }

  lemma HeapSizes<M>(heap: seq<Entry<M>>, e: Entry<M>)
    requires IsHeap(heap, |heap|)
    ensures |HeapPush(heap, e)| == |heap| + 1
    ensures heap != [] ==> |HeapPop(heap).1| == |heap| - 1
  {
    PushAdds(heap, e);
    if heap != [] {
      PopTakesLeast(heap);
    }
  }

  lemma OpBalances<M>(levels: Levels<M>, maxSize: int, op: Op<M>, l: Option<Ledger>)
    requires Balanced(levels, op.name, l)
    requires op.name in levels ==>
               IsHeap(levels[op.name].heap, |levels[op.name].heap|) && levels[op.name].maxSize == maxSize
    ensures Balanced(Apply(levels, maxSize, op), op.name, Entered(l, maxSize, op))
  {
    if op.name in levels {
      var heap := levels[op.name].heap;
      if op.Push? {
        HeapSizes(heap, Entry(op.message, Rank(op.priority, op.now)));
      } else if op.Pop? && heap != [] {
        HeapSizes(heap, heap[0]);
      }
    }
    hide HeapPush, HeapPop, IsHeap;
  }

  lemma OthersBalance<M>(levels: Levels<M>, maxSize: int, op: Op<M>, name: string, l: Option<Ledger>)
    requires Balanced(levels, name, l) && op.name != name
    ensures Balanced(Apply(levels, maxSize, op), name, l)
  {
    hide HeapPush, HeapPop;
  }

  /** In any run a queue is there exactly if it was added, and its counters are what a ledger says that counts
      what was accepted, popped, completed and failed since. */
  lemma {:induction false} CountersMatchLedger<M>(maxSize: int, ops: seq<Op<M>>, name: string)
    ensures Balanced(Run(maxSize, ops), name, Books(maxSize, ops, name))
  {
    if ops != [] {
      var before, op := ops[..|ops| - 1], ops[|ops| - 1];
      CountersMatchLedger(maxSize, before, name);
      EveryRunKeepsLevels(maxSize, before, name);
      hide Balanced, Apply, Entered;
      if op.name == name {
        OpBalances(Run(maxSize, before), maxSize, op, Books(maxSize, before, name));
      } else {
        OthersBalance(Run(maxSize, before), maxSize, op, name, Books(maxSize, before, name));
      }
    }
  }

  /** A push names what is wrong, and otherwise adds its entry, in its place, to that queue alone; a pop of a
      queue that is not there finds it empty. */
  lemma PushIsAccepted<M>(levels: Levels<M>, name: string, e: Entry<M>)
    requires name in levels ==> WellFormed(levels[name])
    ensures var (r, levels') := PushLevel(levels, name, e);
            && (name !in levels ==> r == Err(QueueNotFound) && PopLevel(levels, name).0 == Err(QueueEmpty))
            && (name in levels && 0 < levels[name].maxSize <= |levels[name].heap| ==> r == Err(QueueFull))
            && (r.Err? ==> levels' == levels)
            && (name in levels && (levels[name].maxSize <= 0 || |levels[name].heap| < levels[name].maxSize) ==>
                  && r == Ok(()) && levels'.Keys == levels.Keys && WellFormed(levels'[name])
                  && multiset(levels'[name].heap) == multiset(levels[name].heap) + multiset{e}
                  && forall other <- levels :: other != name ==> levels'[other] == levels[other])
  {
    RefusedPushKeeps(levels, name, e);
    if name in levels {
      PushAdds(levels[name].heap, e);
      hide HeapPush, IsHeap;
    }
  }

  /** What a successful pop returns: an entry that was queued and that none of its level precedes;
      everything else stays, on this level and on all the others. */
  lemma PopReturnsLeast<M>(levels: Levels<M>, name: string)
    requires name in levels && IsHeap(levels[name].heap, |levels[name].heap|)
    ensures var (r, levels') := PopLevel(levels, name);
            var heap := levels[name].heap;
            if heap == [] then r == Err(QueueEmpty) && levels' == levels
            else
              && r == Ok(heap[0].payload) == PeekLevel(levels, name)
              && (forall x <- heap :: AtMost(heap[0].rank, x.rank))
              && levels'.Keys == levels.Keys
              && multiset(levels'[name].heap) + multiset{heap[0]} == multiset(heap)
              && forall other <- levels :: other != name ==> levels'[other] == levels[other]
  {
    if levels[name].heap != [] {
      PopTakesLeast(levels[name].heap);
    }
  }

  // ---------- the queue in place ----------

  lemma PushedWellFormed<M>(level: Level<M>, e: Entry<M>)
    requires WellFormed(level) && (level.maxSize > 0 ==> |level.heap| < level.maxSize)
    ensures WellFormed(level.(heap := HeapPush(level.heap, e),
                              stats := level.stats.(pending := level.stats.pending + 1)))
  {
    PushAdds(level.heap, e);
  }

  lemma PoppedWellFormed<M>(level: Level<M>)
    requires WellFormed(level) && level.heap != []
    ensures var st := level.stats.(pending := level.stats.pending - 1, processing := level.stats.processing + 1);
            WellFormed(level.(heap := HeapPop(level.heap).1, stats := st))
  {
    PopTakesLeast(level.heap);
  }

  ghost predicate AllWellFormed<M>(levels: Levels<M>) {
    forall n | n in levels :: WellFormed(levels[n])
  }

  lemma UpdateWellFormed<M>(levels: Levels<M>, name: string, level: Level<M>)
    requires AllWellFormed(levels) && WellFormed(level)
    ensures AllWellFormed(levels[name := level])
  {
  }

  /** One named queue: its slice of items and its counters. */
  datatype Lane = Lane(maxSize: int, items: seq<HeapItem>, stats: Stats)

  class MultiLevelQueue {
    const maxSize: int
    var lanes: map<string, Lane>
    ghost var view: Levels<Message>  // the state, on values
    ghost var own: set<HeapItem>

    /** The items of a level are where the level says, each with its own slot as its Index. */
    ghost predicate LaneLinked(name: string)
      requires name in lanes && name in view
      reads this, own
    {
      var Lane(bound, items, st) := lanes[name];
      && bound == view[name].maxSize && st == view[name].stats
      && Holds(items, view[name].heap)
      && forall k :: 0 <= k < |items| ==> items[k] in own && items[k].home == name && items[k].index == k
    }

    ghost predicate Linked()
      reads this, own
    {
      lanes.Keys == view.Keys && forall name {:trigger lanes[name]} | name in lanes :: LaneLinked(name)
    }

    /** Changing one level and its items leaves the others linked. */
    twostate lemma OthersLinked(name: string)
      requires old(Linked()) && old(own) <= own && name in lanes && name in view && name in old(lanes)
      requires lanes == old(lanes)[name := lanes[name]] && view == old(view)[name := view[name]]
      requires forall x | x in old(own) && x.home != name :: unchanged(x)
      requires LaneLinked(name)
      ensures Linked()
    {
      hide Holds;
      forall n | n in lanes && n != name
        ensures LaneLinked(n)
      {
        assert old(LaneLinked(n)) && lanes[n] == old(lanes)[n] && view[n] == old(view)[n];
      }
    }

    /** Every level is a heap within its bound, counted right. */
    ghost predicate Valid()
      reads this, own
    {
      Linked() && AllWellFormed(view)
    }

    lemma SameNames()
      requires Valid()
      ensures lanes.Keys == view.Keys
    {
    }

    constructor (maxSize: int)
      ensures Valid() && view == map[] && own == {} && this.maxSize == maxSize
    {
      this.maxSize := maxSize;
      lanes, view, own := map[], map[], {};
    }

    method AddQueue(name: string)
      requires Valid()
      modifies this
      ensures Valid() && own == old(own)
      ensures view == AddLevel(old(view), name, maxSize)
    {
      AddBounded(name, maxSize);
    }

    /** A queue with a bound of its own, as the queue manager makes them. */
    method AddBounded(name: string, bound: int)
      requires Valid()
      modifies this
      ensures Valid() && own == old(own)
      ensures view == AddLevel(old(view), name, bound)
    {
      if name !in lanes {
        lanes, view := lanes[name := Lane(bound, [], Stats(0, 0, 0, 0))], AddLevel(view, name, bound);
      }
    }

    method RemoveQueue(name: string)
      requires Valid()
      modifies this
      ensures Valid() && own == old(own)
      ensures view == old(view) - {name}
    {
      lanes, view := lanes - {name}, view - {name};
    }

    method Insert(queueName: string, item: HeapItem)
      requires Valid()
      requires queueName in lanes && item !in own && item.home == queueName
      requires lanes[queueName].maxSize > 0 ==> |lanes[queueName].items| < lanes[queueName].maxSize
      modifies this, own, item
      ensures Valid() && own == old(own) + {item}
      ensures var Level(bound, heap, st) := old(view)[queueName];
              view == old(view)[queueName := Level(bound, HeapPush(heap, Entry(item.payload, item.rank)),
                                                   st.(pending := st.pending + 1))]
    {
      hide HeapPush, IsHeap, WellFormed;
      var Lane(bound, items, st) := lanes[queueName];
      st := st.(pending := st.pending + 1);
      ghost var level, heap := view[queueName], view[queueName].heap;
      ghost var level' := level.(heap := HeapPush(heap, Entry(item.payload, item.rank)), stats := st);
      ghost var view' := view[queueName := level'];
      PushedWellFormed(level, Entry(item.payload, item.rank));
      UpdateWellFormed(view, queueName, level');
      hide AllWellFormed, Holds;
      items := PushItem(items, item, heap, set x | x in own && x.home == queueName);
      lanes, view, own := lanes[queueName := Lane(bound, items, st)], view', own + {item};
      OthersLinked(queueName);
    }

    method Push(queueName: string, message: Message, priority: int, now: int) returns (r: Result<()>)
      requires Valid()
      modifies this, own
      ensures Valid() && fresh(own - old(own))
      ensures (r, view) == PushLevel(old(view), queueName, Entry(message, Rank(priority, now)))
    {
      hide HeapPush;
      if queueName !in lanes {
        return Err(QueueNotFound);
      }
      assert view == view[queueName := view[queueName]];
      if lanes[queueName].maxSize > 0 && |lanes[queueName].items| >= lanes[queueName].maxSize {
        return Err(QueueFull);
      }
      var item := new HeapItem(message, Rank(priority, now), queueName);
      Insert(queueName, item);
      r := Ok(());
    }

    method Pop(queueName: string) returns (r: Result<Message>)
      requires Valid()
      modifies this, own
      ensures Valid() && own == old(own)
      ensures (r, view) == PopLevel(old(view), queueName)
    {
      hide HeapPop, IsHeap, WellFormed;
      assert queueName in view ==> view == view[queueName := view[queueName]];
      if queueName !in lanes || lanes[queueName].items == [] {
        return Err(QueueEmpty);
      }
      var Lane(bound, items, st) := lanes[queueName];
      st := st.(pending := st.pending - 1, processing := st.processing + 1);
      ghost var heap := view[queueName].heap;
      ghost var level' := view[queueName].(heap := HeapPop(heap).1, stats := st);
      ghost var view' := view[queueName := level'];
      PoppedWellFormed(view[queueName]);
      UpdateWellFormed(view, queueName, level');
      hide AllWellFormed;
      var item;
      item, items := PopItem(items, heap, set x | x in own && x.home == queueName);
      lanes, view := lanes[queueName := Lane(bound, items, st)], view';
      OthersLinked(queueName);
      r := Ok(item.payload);
    }

    method Peek(queueName: string) returns (r: Result<Message>)
      requires Valid()
      ensures r == PeekLevel(view, queueName)
    {
      if queueName !in lanes || lanes[queueName].items == [] {
        return Err(QueueEmpty);
      }
      r := Ok(lanes[queueName].items[0].payload);
    }

    method Size(queueName: string) returns (r: Result<int>)
      requires Valid()
      ensures r == if queueName in view then Ok(|view[queueName].heap|) else Err(QueueNotFound)
    {
      if queueName !in lanes {
        return Err(QueueNotFound);
      }
      r := Ok(|lanes[queueName].items|);
    }

    method CompleteMessage(queueName: string)
      requires Valid()
      modifies this
      ensures Valid() && own == old(own)
      ensures view == CompleteLevel(old(view), queueName)
    {
      if queueName in lanes {
        var Lane(bound, items, st) := lanes[queueName];
        st := st.(processing := st.processing - 1, completed := st.completed + 1);
        lanes, view := lanes[queueName := Lane(bound, items, st)], CompleteLevel(view, queueName);
      }
    }

    method FailMessage(queueName: string)
      requires Valid()
      modifies this
      ensures Valid() && own == old(own)
      ensures view == FailLevel(old(view), queueName)
    {
      if queueName in lanes {
        var Lane(bound, items, st) := lanes[queueName];
        st := st.(processing := st.processing - 1, failed := st.failed + 1);
        lanes, view := lanes[queueName := Lane(bound, items, st)], FailLevel(view, queueName);
      }
    }
  }
}
