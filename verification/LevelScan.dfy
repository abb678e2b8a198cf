/** The queue manager process's loop: try the four levels from realtime to low and take the first
    message found. */
module LevelScan {
  import opened BinaryHeap
  import opened Messages
  import opened MultiLevelQueues

  const LEVELS: seq<string> := ["realtime", "high", "normal", "low"]

  /** Pop the first of the named levels that has anything. */
  function Scan<M>(levels: Levels<M>, names: seq<string>): (Result<M>, Levels<M>) {
    if names == [] then (Err(QueueEmpty), levels)
    else
      var (r, levels') := PopLevel(levels, names[0]);
      if r.Ok? then (r, levels') else Scan(levels', names[1..])
  }

  /** Every entry sits in the queue named after its priority, as the gateway routes it. */
  ghost predicate Routed<M>(levels: Levels<M>) {
    forall n | n in levels ::
      && IsHeap(levels[n].heap, |levels[n].heap|)
      && forall e <- levels[n].heap :: PriorityName(e.rank.major) == n
  }

  /** The gateway: print the priority and use it as the queue name. */
  function Submit<M>(levels: Levels<M>, m: M, priority: int, now: int): (Result<()>, Levels<M>) {
    PushLevel(levels, PriorityName(priority), Entry(m, Rank(priority, now)))
  }

  lemma SubmitKeepsRouting<M>(levels: Levels<M>, m: M, priority: int, now: int)
    requires Routed(levels)
    ensures Routed(Submit(levels, m, priority, now).1)
  {
    var n := PriorityName(priority);
    if n in levels {
      var e := Entry(m, Rank(priority, now));
      PushAdds(levels[n].heap, e);
      hide HeapPush;
      forall x <- HeapPush(levels[n].heap, e)
        ensures PriorityName(x.rank.major) == n
      {
        assert x in multiset(HeapPush(levels[n].heap, e));
      }
    }
  }

  /** What the named level holds; nothing if there is no such level. */
  function HeapOf<M>(levels: Levels<M>, name: string): seq<Entry<M>> {
    if name in levels then levels[name].heap else []
  }

  ghost function HeldAt<M>(levels: Levels<M>, i: nat): multiset<Entry<M>>
    requires i < |LEVELS|
  {
    multiset(HeapOf(levels, LEVELS[i]))
  }

  /** Everything the four levels hold: the one global queue that the scan stands for. */
  ghost function Queued<M>(levels: Levels<M>): multiset<Entry<M>> {
    HeldAt(levels, 0) + HeldAt(levels, 1) + HeldAt(levels, 2) + HeldAt(levels, 3)
  }

  lemma MajorOf<M>(levels: Levels<M>, name: string, e: Entry<M>)
    requires Routed(levels) && e in HeapOf(levels, name) && name in LEVELS
    ensures e.rank.major == if name == "realtime" then REALTIME else if name == "high" then HIGH
                            else if name == "normal" then NORMAL else LOW
  {
  }

  /** The level the scan pops: the first that is not empty. */
  function FirstFull<M>(levels: Levels<M>, names: seq<string>): (k: nat)
    ensures k <= |names|
    ensures forall i :: 0 <= i < k ==> HeapOf(levels, names[i]) == []
    ensures k < |names| ==> HeapOf(levels, names[k]) != []
  {
    if names == [] || HeapOf(levels, names[0]) != [] then 0 else 1 + FirstFull(levels, names[1..])
  }

  lemma {:induction false} ScanPopsFirstFull<M>(levels: Levels<M>, names: seq<string>)
    ensures var k := FirstFull(levels, names);
            Scan(levels, names) == if k < |names| then PopLevel(levels, names[k]) else (Err(QueueEmpty), levels)
  {
    if names != [] {
      if names[0] in levels {
        assert levels[names[0] := levels[names[0]]] == levels;
      }
      ScanPopsFirstFull(levels, names[1..]);
    }
  }

  /** The scan comes back empty-handed exactly when all four levels are empty or missing. */
  lemma ScanFailsOnlyWhenEmpty<M>(levels: Levels<M>)
    ensures Scan(levels, LEVELS).0.Err? <==> Queued(levels) == multiset{}
    ensures Scan(levels, LEVELS).0.Err? ==> Scan(levels, LEVELS).1 == levels
  {
    ScanPopsFirstFull(levels, LEVELS);
    var k := FirstFull(levels, LEVELS);
    if k == |LEVELS| {
      assert HeapOf(levels, LEVELS[0]) == HeapOf(levels, LEVELS[1]) == [];
      assert HeapOf(levels, LEVELS[2]) == HeapOf(levels, LEVELS[3]) == [];
    } else {
      var h := HeapOf(levels, LEVELS[k]);
      assert h[0] in multiset(h);
      assert LEVELS[k] == "realtime" || LEVELS[k] == "high" || LEVELS[k] == "normal" || LEVELS[k] == "low";
      assert h[0] in Queued(levels);
    }
  }

  lemma PopKeepsRouting<M>(levels: Levels<M>, name: string)
    requires Routed(levels) && name in levels && levels[name].heap != []
    ensures var h := levels[name].heap;
            var (r, levels') := PopLevel(levels, name);
            && Routed(levels')
            && r == Ok(h[0].payload)
            && levels'.Keys == levels.Keys
            && multiset(h) == multiset(levels'[name].heap) + multiset{h[0]}
            && (forall x <- h :: AtMost(h[0].rank, x.rank))
            && forall n | n in levels && n != name :: levels'[n] == levels[n]
  {
    PopTakesLeast(levels[name].heap);
    var rest := HeapPop(levels[name].heap).1;
    hide HeapPop;
    forall x <- rest
      ensures x in levels[name].heap
    {
      assert x in multiset(rest);
      assert x in multiset(levels[name].heap);
    }
  }

  /** The scan refines one global priority queue: if every push was routed by its priority, it
      returns the least (Priority, Timestamp) entry over all four levels and takes out exactly that
      one. */
  lemma ScanIsGlobalPop<M>(levels: Levels<M>) returns (e: Entry<M>)
    requires Routed(levels) && Queued(levels) != multiset{}
    ensures var (r, levels') := Scan(levels, LEVELS);
            && r == Ok(e.payload)
            && Routed(levels')
            && Queued(levels) == Queued(levels') + multiset{e}
            && forall x <- Queued(levels) :: AtMost(e.rank, x.rank)
  {
    ScanFailsOnlyWhenEmpty(levels);
    ScanPopsFirstFull(levels, LEVELS);
    var k := FirstFull(levels, LEVELS);
    var name := LEVELS[k];
    e := levels[name].heap[0];
    PopKeepsRouting(levels, name);
    var levels' := PopLevel(levels, name).1;
    hide Scan, PopLevel, FirstFull, IsHeap, Routed;
    QueuedLess(levels, levels', k, e);
    forall x <- Queued(levels)
      ensures AtMost(e.rank, x.rank)
    {
      FirstLevelFirst(levels, k, x);
    }
  }

  lemma QueuedLess<M>(levels: Levels<M>, levels': Levels<M>, k: nat, e: Entry<M>)
    requires k < |LEVELS| && LEVELS[k] in levels && levels'.Keys == levels.Keys
    requires multiset(levels[LEVELS[k]].heap) == multiset(levels'[LEVELS[k]].heap) + multiset{e}
    requires forall n | n in levels && n != LEVELS[k] :: levels'[n] == levels[n]
    ensures Queued(levels) == Queued(levels') + multiset{e}
  {
    forall i | 0 <= i < |LEVELS|
      ensures HeldAt(levels, i) == if i == k then HeldAt(levels', i) + multiset{e} else HeldAt(levels', i)
    {
      if i != k {
        LevelsDistinct(i, k);
      }
    }
    hide HeldAt;
    assert k == 0 || k == 1 || k == 2 || k == 3;
    AddToOneOfFour(HeldAt(levels', 0), HeldAt(levels', 1), HeldAt(levels', 2), HeldAt(levels', 3), multiset{e});
  }

  lemma AddToOneOfFour<T>(a: multiset<T>, b: multiset<T>, c: multiset<T>, d: multiset<T>, e: multiset<T>)
    ensures a + e + b + c + d == a + b + c + d + e
    ensures a + (b + e) + c + d == a + b + c + d + e
    ensures a + b + (c + e) + d == a + b + c + d + e
    ensures a + b + c + (d + e) == a + b + c + d + e
  {
  }

  lemma LevelsDistinct(i: nat, k: nat)
    requires i < |LEVELS| && k < |LEVELS| && i != k
    ensures LEVELS[i] != LEVELS[k]
  {
    assert LEVELS[0][0] == 'r' && LEVELS[1][0] == 'h' && LEVELS[2][0] == 'n' && LEVELS[3][0] == 'l';
  }

  lemma FirstLevelFirst<M>(levels: Levels<M>, k: nat, x: Entry<M>)
    requires Routed(levels) && k < |LEVELS| && LEVELS[k] in levels && levels[LEVELS[k]].heap != []
    requires forall i :: 0 <= i < k ==> HeapOf(levels, LEVELS[i]) == []
    requires forall y <- levels[LEVELS[k]].heap :: AtMost(levels[LEVELS[k]].heap[0].rank, y.rank)
    requires x in Queued(levels)
    ensures AtMost(levels[LEVELS[k]].heap[0].rank, x.rank)
  {
    var e := levels[LEVELS[k]].heap[0];
    var l := if x in HeapOf(levels, LEVELS[0]) then 0 else if x in HeapOf(levels, LEVELS[1]) then 1
             else if x in HeapOf(levels, LEVELS[2]) then 2 else 3;
    assert x in HeapOf(levels, LEVELS[l]);
    assert k <= l;
    MajorOf(levels, LEVELS[k], e);
    MajorOf(levels, LEVELS[l], x);
  }

  // ---------- runs ----------

  datatype Event<+M> = Arrives(m: M, priority: int, now: int) | Scans

  function Happen<M>(levels: Levels<M>, ev: Event<M>): (Result<M>, Levels<M>) {
    match ev
    case Scans => Scan(levels, LEVELS)
    case Arrives(m, priority, now) =>
      var (r, levels') := Submit(levels, m, priority, now);
      (if r.Ok? then Ok(m) else Err(r.error), levels')
  }

  /** What one event may do to a single priority queue holding q: an arrival goes in or is refused; a
      scan takes out a least entry, or finds nothing. */
  ghost predicate GlobalStep<M(!new)>(q: multiset<Entry<M>>, ev: Event<M>, r: Result<M>, q': multiset<Entry<M>>) {
    match ev
    case Arrives(m, priority, now) => q' == if r.Ok? then q + multiset{Entry(m, Rank(priority, now))} else q
    case Scans =>
      if q == multiset{} then r == Err(QueueEmpty) && q' == q
      else exists e: Entry<M> :: r == Ok(e.payload) && q == q' + multiset{e} && forall x <- q :: AtMost(e.rank, x.rank)
  }

  /** The four levels and no others, routed by priority. */
  ghost predicate Ready<M>(levels: Levels<M>) {
    Routed(levels) && levels.Keys == {"realtime", "high", "normal", "low"}
  }

  /** With the four levels there, the gateway's push is accepted exactly if the priority is one of the four and
      its level has room. */
  lemma SubmitAcceptedIff<M>(levels: Levels<M>, m: M, priority: int, now: int)
    requires Ready(levels)
    ensures var r := Submit(levels, m, priority, now).0;
            && (r == Err(QueueNotFound) <==> !(1 <= priority <= 4))
            && (1 <= priority <= 4 ==>
                  var level := levels[LEVELS[priority - 1]];
                  if 0 < level.maxSize <= |level.heap| then r == Err(QueueFull) else r == Ok(()))
  {
    var n := PriorityName(priority);
    assert 1 <= priority <= 4 ==> n == LEVELS[priority - 1];
    assert !(1 <= priority <= 4) ==> n == "unknown" && n[0] == 'u';
    assert "realtime"[0] == 'r' && "high"[0] == 'h' && "normal"[0] == 'n' && "low"[0] == 'l';
    hide Routed, HeapPush;
  }

  lemma SubmitAdds<M>(levels: Levels<M>, m: M, priority: int, now: int)
    requires Ready(levels)
    ensures var (r, levels') := Submit(levels, m, priority, now);
            && Ready(levels')
            && Queued(levels') == if r.Ok? then Queued(levels) + multiset{Entry(m, Rank(priority, now))}
                                   else Queued(levels)
  {
    SubmitKeepsRouting(levels, m, priority, now);
    SubmitMeans(levels, m, priority, now);
    hide Submit, Routed, Queued;
    var name := PriorityName(priority);
    var (r, levels') := Submit(levels, m, priority, now);
    if r.Ok? {
      var k := if name == LEVELS[0] then 0 else if name == LEVELS[1] then 1 else if name == LEVELS[2] then 2 else 3;
      assert LEVELS[k] == name;
      hide *;
      QueuedLess(levels', levels, k, Entry(m, Rank(priority, now)));
    }
  }

  lemma SubmitMeans<M>(levels: Levels<M>, m: M, priority: int, now: int)
    requires Routed(levels)
    ensures var (r, levels') := Submit(levels, m, priority, now);
            var name := PriorityName(priority);
            && levels'.Keys == levels.Keys
            && if r.Ok? then
                 && name in levels
                 && multiset(levels'[name].heap) ==
                    multiset(levels[name].heap) + multiset{Entry(m, Rank(priority, now))}
                 && forall n | n in levels && n != name :: levels'[n] == levels[n]
               else levels' == levels
  {
    hide HeapPush;
    var name := PriorityName(priority);
    if name in levels {
      assert levels[name := levels[name]] == levels;
      PushAdds(levels[name].heap, Entry(m, Rank(priority, now)));
    }
  }

  lemma EventRefines<M(!new)>(levels: Levels<M>, ev: Event<M>)
    requires Ready(levels)
    ensures var (r, levels') := Happen(levels, ev);
            Ready(levels') && GlobalStep(Queued(levels), ev, r, Queued(levels'))
  {
    if ev.Arrives? {
      SubmitAdds(levels, ev.m, ev.priority, ev.now);
      hide Submit, Queued, Ready;
    } else {
      ScanFailsOnlyWhenEmpty(levels);
      ScanKeepsLevels(levels, LEVELS);
      hide Scan, Queued, Routed;
      if Queued(levels) != multiset{} {
        var e := ScanIsGlobalPop(levels);
      } else {
        ScanErrorIsEmpty(levels, LEVELS);
      }
    }
  }

  lemma {:induction false} ScanKeepsLevels<M>(levels: Levels<M>, names: seq<string>)
    ensures Scan(levels, names).1.Keys == levels.Keys
  {
    if names != [] {
      ScanKeepsLevels(PopLevel(levels, names[0]).1, names[1..]);
    }
  }

  lemma {:induction false} ScanErrorIsEmpty<M>(levels: Levels<M>, names: seq<string>)
    ensures Scan(levels, names).0.Err? ==> Scan(levels, names).0 == Err(QueueEmpty)
  {
    if names != [] {
      ScanErrorIsEmpty(PopLevel(levels, names[0]).1, names[1..]);
    }
  }

  ghost predicate IsRun<M>(run: seq<Levels<M>>, evs: seq<Event<M>>) {
    && |run| == |evs| + 1
    && forall i :: 0 <= i < |evs| ==> run[i + 1] == Happen(run[i], evs[i]).1
  }

  /** In every run of arrivals routed by the gateway and uninterrupted scans, the four queues behave as
      one priority queue: each event returns and leaves what that queue allows. */
  lemma {:induction false} RunsRefineOneQueue<M(!new)>(run: seq<Levels<M>>, evs: seq<Event<M>>, i: nat)
    requires IsRun(run, evs) && Ready(run[0]) && i < |evs|
    ensures Ready(run[i]) && Ready(run[i + 1])
    ensures GlobalStep(Queued(run[i]), evs[i], Happen(run[i], evs[i]).0, Queued(run[i + 1]))
  {
    if i > 0 {
      RunsRefineOneQueue(run, evs, i - 1);
    }
    EventRefines(run[i], evs[i]);
    hide Happen, Ready, GlobalStep, Queued;
  }

  // ---------- several scanners, one level at a time ----------

  /** Where each scanner is: about to visit a level, or between scans. */
  datatype Shared<M> = Shared(levels: Levels<M>, scanners: seq<Option<nat>>)

  datatype Move<+M> = Submits(m: M, priority: int, now: int) | Starts(w: nat) | Visits(w: nat)

  predicate CanMove<M>(s: Shared<M>, mv: Move<M>) {
    match mv
    case Submits(_, _, _) => true
    case Starts(w) => w < |s.scanners| && s.scanners[w].None?
    case Visits(w) => w < |s.scanners| && s.scanners[w].Some? && s.scanners[w].value < |LEVELS|
  }

  /** A visit pops its level under the queue's lock; a find or the last level ends the scan. */
  function Moved<M>(s: Shared<M>, mv: Move<M>): Shared<M>
    requires CanMove(s, mv)
  {
    match mv
    case Submits(m, priority, now) => s.(levels := Submit(s.levels, m, priority, now).1)
    case Starts(w) => s.(scanners := s.scanners[w := Some(0)])
    case Visits(w) =>
      var k := s.scanners[w].value;
      var (r, levels) := PopLevel(s.levels, LEVELS[k]);
      Shared(levels, s.scanners[w := if r.Ok? || k + 1 == |LEVELS| then None else Some(k + 1)])
  }

  /** What a visit comes back with. */
  function Found<M>(s: Shared<M>, mv: Move<M>): Result<M>
    requires mv.Visits? && CanMove(s, mv)
  {
    PopLevel(s.levels, LEVELS[s.scanners[mv.w].value]).0
  }

  ghost predicate IsSharedRun<M>(run: seq<Shared<M>>, moves: seq<Move<M>>) {
    && |run| == |moves| + 1 && Ready(run[0].levels)
    && forall i :: 0 <= i < |moves| ==> CanMove(run[i], moves[i]) && run[i + 1] == Moved(run[i], moves[i])
  }

  /** Scanner w started at move i and is still scanning before move j. */
  ghost predicate Scanning<M>(run: seq<Shared<M>>, moves: seq<Move<M>>, w: nat, i: nat, j: nat) {
    && IsSharedRun(run, moves) && i < j <= |moves| && moves[i] == Starts(w)
    && forall m :: i < m <= j ==> w < |run[m].scanners| && run[m].scanners[w].Some?
  }

  lemma VisitKeepsReady<M>(levels: Levels<M>, name: string)
    requires Ready(levels) && name in LEVELS
    ensures Ready(PopLevel(levels, name).1)
  {
    if levels[name].heap != [] {
      PopKeepsRouting(levels, name);
    } else {
      assert levels[name := levels[name]] == levels;
    }
  }

  lemma {:induction false} SharedRunsStayReady<M>(run: seq<Shared<M>>, moves: seq<Move<M>>, i: nat)
    requires IsSharedRun(run, moves) && i < |run|
    ensures Ready(run[i].levels)
  {
    if i > 0 {
      SharedRunsStayReady(run, moves, i - 1);
      var s, mv := run[i - 1], moves[i - 1];
      assert CanMove(s, mv) && run[i - 1 + 1] == Moved(s, mv);
      hide Ready, IsSharedRun;
      match mv
      case Submits(m, priority, now) => SubmitAdds(s.levels, m, priority, now);
      case Visits(w) => VisitKeepsReady(s.levels, LEVELS[s.scanners[w].value]);
      case Starts(w) =>
    }
  }

  /** The level was empty at some moment of the scan. */
  ghost predicate SeenEmpty<M>(run: seq<Shared<M>>, i: nat, j: nat, l: nat) {
    exists m :: i < m <= j < |run| && l < |LEVELS| && HeapOf(run[m].levels, LEVELS[l]) == []
  }

  lemma SeenLater<M>(run: seq<Shared<M>>, i: nat, j: nat, l: nat)
    requires SeenEmpty(run, i, j, l) && j + 1 < |run|
    ensures SeenEmpty(run, i, j + 1, l)
  {
    var m :| i < m <= j < |run| && l < |LEVELS| && HeapOf(run[m].levels, LEVELS[l]) == [];
  }

  /** A scanner about to visit level k found every level before it empty when it visited it. */
  lemma {:induction false} LevelsBehindWereEmpty<M>(run: seq<Shared<M>>, moves: seq<Move<M>>, w: nat, i: nat, j: nat,
                                                    l: nat)
    requires Scanning(run, moves, w, i, j)
    ensures run[j].scanners[w].value < |LEVELS|
    ensures l < run[j].scanners[w].value ==> SeenEmpty(run, i, j, l)
    decreases j
  {
    if j == i + 1 {
      assert run[i + 1] == Moved(run[i], moves[i]);
      return;
    }
    LevelsBehindWereEmpty(run, moves, w, i, j - 1, l);
    var s, mv := run[j - 1], moves[j - 1];
    assert CanMove(s, mv) && run[j - 1 + 1] == Moved(s, mv);
    var k := s.scanners[w].value;
    if l < k {
      SeenLater(run, i, j - 1, l);
    } else if mv == Visits(w) && l == k {
      hide IsSharedRun;
      assert HeapOf(s.levels, LEVELS[l]) == [];
      assert SeenEmpty(run, i, j - 1, l);
      SeenLater(run, i, j - 1, l);
    }
  }

  /** What is queued throughout a scan up to before move j. */
  ghost predicate Throughout<M>(run: seq<Shared<M>>, i: nat, j: nat, x: Entry<M>) {
    j < |run| && forall m :: i < m <= j ==> x in Queued(run[m].levels)
  }

  /** The level of an entry's own priority. */
  function LevelOf(priority: int): nat {
    if priority == REALTIME then 0 else if priority == HIGH then 1 else if priority == NORMAL then 2 else 3
  }

  predicate Known(priority: int) {
    priority == REALTIME || priority == HIGH || priority == NORMAL || priority == LOW
  }

  lemma QueuedAtItsLevel<M>(levels: Levels<M>, x: Entry<M>)
    requires Ready(levels) && x in Queued(levels)
    ensures x in HeapOf(levels, LEVELS[LevelOf(x.rank.major)])
    ensures Known(x.rank.major)
  {
    var l := if x in HeapOf(levels, LEVELS[0]) then 0 else if x in HeapOf(levels, LEVELS[1]) then 1
             else if x in HeapOf(levels, LEVELS[2]) then 2 else 3;
    assert x in HeapOf(levels, LEVELS[l]);
    MajorOf(levels, LEVELS[l], x);
  }

  lemma AtLevelIsQueued<M>(levels: Levels<M>, l: nat, x: Entry<M>)
    requires l < |LEVELS| && x in HeapOf(levels, LEVELS[l])
    ensures x in Queued(levels)
  {
    assert x in HeldAt(levels, l);
    assert l == 0 || l == 1 || l == 2 || l == 3;
  }

  /** An entry of a level that was seen empty was not queued throughout. */
  lemma SeenEmptyRulesOut<M>(run: seq<Shared<M>>, moves: seq<Move<M>>, i: nat, j: nat, x: Entry<M>)
    requires IsSharedRun(run, moves) && Throughout(run, i, j, x)
    ensures !SeenEmpty(run, i, j, LevelOf(x.rank.major))
  {
    if m :| i < m <= j < |run| && HeapOf(run[m].levels, LEVELS[LevelOf(x.rank.major)]) == [] {
      SharedRunsStayReady(run, moves, m);
      QueuedAtItsLevel(run[m].levels, x);
      assert false;
    }
  }

  /** Several scanners and any arrivals interleaved level by level: what a scan returns goes before every
      entry that was queued throughout the scan, and is taken out of the queues. */
  lemma ScanReturnsLeastThroughout<M>(run: seq<Shared<M>>, moves: seq<Move<M>>, w: nat, i: nat, j: nat)
      returns (e: Entry<M>)
    requires Scanning(run, moves, w, i, j) && j < |moves| && moves[j] == Visits(w) && Found(run[j], moves[j]).Ok?
    ensures Found(run[j], moves[j]) == Ok(e.payload)
    ensures Queued(run[j].levels) == Queued(run[j + 1].levels) + multiset{e}
    ensures forall x | Throughout(run, i, j, x) :: AtMost(e.rank, x.rank)
    ensures (forall x <- Queued(run[j].levels) :: AtMost(e.rank, x.rank)) <==>
              forall l :: 0 <= l < run[j].scanners[w].value && l < |LEVELS| ==> HeapOf(run[j].levels, LEVELS[l]) == []
  {
    LevelsBehindWereEmpty(run, moves, w, i, j, 0);
    SharedRunsStayReady(run, moves, j);
    assert CanMove(run[j], moves[j]) && run[j + 1] == Moved(run[j], moves[j]);
    var levels, k := run[j].levels, run[j].scanners[w].value;
    hide *;
    e := VisitTakes(levels, k);
    forall x | Throughout(run, i, j, x)
      ensures AtMost(e.rank, x.rank)
    {
      ThroughoutIsLater(run, moves, w, i, j, x);
      LaterLevelLater(e, x);
    }
  }

  lemma LaterLevelLater<M>(e: Entry<M>, x: Entry<M>)
    requires Known(e.rank.major) && Known(x.rank.major)
    ensures LevelOf(e.rank.major) < LevelOf(x.rank.major) ==> AtMost(e.rank, x.rank)
  {
  }

  lemma VisitTakes<M>(levels: Levels<M>, k: nat) returns (e: Entry<M>)
    requires Ready(levels) && k < |LEVELS| && PopLevel(levels, LEVELS[k]).0.Ok?
    ensures PopLevel(levels, LEVELS[k]).0 == Ok(e.payload)
    ensures Queued(levels) == Queued(PopLevel(levels, LEVELS[k]).1) + multiset{e}
    ensures LevelOf(e.rank.major) == k && Known(e.rank.major)
    ensures forall x <- HeapOf(levels, LEVELS[k]) :: AtMost(e.rank, x.rank)
    ensures (forall x <- Queued(levels) :: AtMost(e.rank, x.rank)) <==>
              forall l :: 0 <= l < k && l < |LEVELS| ==> HeapOf(levels, LEVELS[l]) == []
  {
    e := levels[LEVELS[k]].heap[0];
    PopKeepsRouting(levels, LEVELS[k]);
    QueuedLess(levels, PopLevel(levels, LEVELS[k]).1, k, e);
    MajorOf(levels, LEVELS[k], e);
    LeastIffEarlierEmpty(levels, k, e);
    hide PopLevel, Queued;
    assert k == 0 || k == 1 || k == 2 || k == 3;
  }

  lemma ThroughoutIsLater<M>(run: seq<Shared<M>>, moves: seq<Move<M>>, w: nat, i: nat, j: nat, x: Entry<M>)
    requires Scanning(run, moves, w, i, j) && j < |moves| && Throughout(run, i, j, x)
    ensures LevelOf(x.rank.major) >= run[j].scanners[w].value
    ensures LevelOf(x.rank.major) == run[j].scanners[w].value ==>
              x in HeapOf(run[j].levels, LEVELS[LevelOf(x.rank.major)])
    ensures Known(x.rank.major)
  {
    SharedRunsStayReady(run, moves, j);
    QueuedAtItsLevel(run[j].levels, x);
    SeenEmptyRulesOut(run, moves, i, j, x);
    LevelsBehindWereEmpty(run, moves, w, i, j, LevelOf(x.rank.major));
  }

  /** The root of level k is the least of everything queued exactly if the levels before k are empty. */
  lemma LeastIffEarlierEmpty<M>(levels: Levels<M>, k: nat, e: Entry<M>)
    requires Ready(levels) && k < |LEVELS| && levels[LEVELS[k]].heap != [] && e == levels[LEVELS[k]].heap[0]
    requires forall x <- levels[LEVELS[k]].heap :: AtMost(e.rank, x.rank)
    ensures (forall x <- Queued(levels) :: AtMost(e.rank, x.rank)) <==>
              forall l :: 0 <= l < k ==> HeapOf(levels, LEVELS[l]) == []
  {
    MajorOf(levels, LEVELS[k], e);
    if l :| 0 <= l < k && HeapOf(levels, LEVELS[l]) != [] {
      var x := HeapOf(levels, LEVELS[l])[0];
      AtLevelIsQueued(levels, l, x);
      MajorOf(levels, LEVELS[l], x);
      assert !AtMost(e.rank, x.rank);
    } else {
      forall x <- Queued(levels)
        ensures AtMost(e.rank, x.rank)
      {
        FirstLevelFirst(levels, k, x);
      }
    }
  }

  /** A scan that fails found each level empty when it visited it; so nothing was queued throughout. */
  lemma ScanFailsOnlyIfEachWasEmpty<M>(run: seq<Shared<M>>, moves: seq<Move<M>>, w: nat, i: nat, j: nat)
    requires Scanning(run, moves, w, i, j) && j < |moves| && moves[j] == Visits(w)
    requires Found(run[j], moves[j]).Err? && run[j + 1].scanners[w].None?
    ensures forall l :: 0 <= l < |LEVELS| ==> SeenEmpty(run, i, j, l)
    ensures forall x :: !Throughout(run, i, j, x)
  {
    assert CanMove(run[j], moves[j]) && run[j + 1] == Moved(run[j], moves[j]);
    forall l | 0 <= l < |LEVELS|
      ensures SeenEmpty(run, i, j, l)
    {
      LevelsBehindWereEmpty(run, moves, w, i, j, l);
      if l == run[j].scanners[w].value {
        SharedRunsStayReady(run, moves, j);
        assert HeapOf(run[j].levels, LEVELS[l]) == [];
      }
    }
    forall x
      ensures !Throughout(run, i, j, x)
    {
      if Throughout(run, i, j, x) {
        SeenEmptyRulesOut(run, moves, i, j, x);
        assert false;
      }
    }
  }

  /** When nothing else moves, the visits of one scan come to the scan above. */
  function VisitOn<M>(levels: Levels<M>, k: nat): (Result<M>, Levels<M>)
    requires k < |LEVELS|
    decreases |LEVELS| - k
  {
    var (r, levels') := PopLevel(levels, LEVELS[k]);
    if r.Ok? || k + 1 == |LEVELS| then (r, levels') else VisitOn(levels', k + 1)
  }

  lemma {:induction false} VisitsAreScan<M>(levels: Levels<M>, k: nat)
    requires k < |LEVELS|
    ensures VisitOn(levels, k) == Scan(levels, LEVELS[k..])
    decreases |LEVELS| - k
  {
    assert LEVELS[k..][0] == LEVELS[k] && LEVELS[k..][1..] == LEVELS[k + 1..];
    var (r, levels') := PopLevel(levels, LEVELS[k]);
    if r.Err? && k + 1 < |LEVELS| {
      VisitsAreScan(levels', k + 1);
    } else if r.Err? {
      assert Scan(levels', []) == (Err(QueueEmpty), levels');
    }
  }

  function FourEmpty(): Levels<nat> {
    map["realtime" := EmptyLevel(0), "high" := EmptyLevel(0), "normal" := EmptyLevel(0), "low" := EmptyLevel(0)]
  }

  function LowOnly(): Levels<nat> {
    FourEmpty()["low" := Level(0, [Entry(0, Rank(LOW, 0))], Stats(1, 0, 0, 0))]
  }

  function LowAndRealtime(): Levels<nat> {
    LowOnly()["realtime" := Level(0, [Entry(1, Rank(REALTIME, 1))], Stats(1, 0, 0, 0))]
  }

  lemma OvertakenLevels()
    ensures Ready(FourEmpty())
    ensures Submit(FourEmpty(), 0, LOW, 0).1 == LowOnly() && Submit(LowOnly(), 1, REALTIME, 1).1 == LowAndRealtime()
    ensures PopLevel(LowOnly(), LEVELS[0]) == (Err(QueueEmpty), LowOnly())
    ensures PopLevel(LowAndRealtime(), LEVELS[1]) == (Err(QueueEmpty), LowAndRealtime())
    ensures PopLevel(LowAndRealtime(), LEVELS[2]) == (Err(QueueEmpty), LowAndRealtime())
    ensures PopLevel(LowAndRealtime(), LEVELS[3]).0 == Ok(0)
    ensures Entry(1, Rank(REALTIME, 1)) in Queued(LowAndRealtime())
  {
    OnePush(Entry(0, Rank(LOW, 0)));
    OnePush(Entry(1, Rank(REALTIME, 1)));
    hide HeapPush, HeapPop;
    PopEmpty(LowOnly(), LEVELS[0]);
    PopEmpty(LowAndRealtime(), LEVELS[1]);
    PopEmpty(LowAndRealtime(), LEVELS[2]);
    AtLevelIsQueued(LowAndRealtime(), 0, Entry(1, Rank(REALTIME, 1)));
  }

  function OvertakenMoves(): seq<Move<nat>> {
    [Submits(0, LOW, 0), Starts(0), Visits(0), Submits(1, REALTIME, 1), Visits(0), Visits(0), Visits(0)]
  }

  function OvertakenRun(): seq<Shared<nat>> {
    var l1, l4 := LowOnly(), LowAndRealtime();
    [Shared(FourEmpty(), [None]), Shared(l1, [None]), Shared(l1, [Some(0)]), Shared(l1, [Some(1)]),
     Shared(l4, [Some(1)]), Shared(l4, [Some(2)]), Shared(l4, [Some(3)])]
  }

  lemma OvertakenStep(k: nat)
    requires k < 6
    ensures var s, mv := OvertakenRun()[k], OvertakenMoves()[k];
            CanMove(s, mv) && OvertakenRun()[k + 1] == Moved(s, mv)
  {
    OvertakenLevels();
    hide Submit, PopLevel, Queued, Ready, FourEmpty, LowOnly, LowAndRealtime;
    var s := OvertakenRun()[k];
    assert s.scanners[0 := OvertakenRun()[k + 1].scanners[0]] == OvertakenRun()[k + 1].scanners;
  }

  /** A concrete run: the scanner finds realtime empty, a realtime message arrives, and the scan returns the
      low one that was there, although the realtime one goes first. */
  lemma OvertakenScan() returns (run: seq<Shared<nat>>, moves: seq<Move<nat>>)
    ensures IsSharedRun(run, moves) && |moves| == 7 && Scanning(run, moves, 0, 1, 6) && moves[6] == Visits(0)
    ensures Found(run[6], moves[6]) == Ok(0)
    ensures Entry(1, Rank(REALTIME, 1)) in Queued(run[6].levels)
    ensures moves[0] == Submits(0, LOW, 0) && moves[3] == Submits(1, REALTIME, 1)
  {
    OvertakenEnds();
    hide Submit, PopLevel, Queued, Ready, OvertakenRun, OvertakenMoves, CanMove, Moved, Found;
    var start := OvertakenRun();
    moves := OvertakenMoves();
    run := start + [Moved(start[6], moves[6])];
    forall k | 0 <= k < 7
      ensures CanMove(run[k], moves[k]) && run[k + 1] == Moved(run[k], moves[k])
    {
      if k < 6 {
        OvertakenStep(k);
      }
    }
  }

  lemma OvertakenEnds()
    ensures var start, moves := OvertakenRun(), OvertakenMoves();
            && |start| == |moves| == 7 && Ready(start[0].levels)
            && moves[0] == Submits(0, LOW, 0) && moves[1] == Starts(0) && moves[3] == Submits(1, REALTIME, 1)
            && moves[6] == Visits(0) && CanMove(start[6], moves[6]) && Found(start[6], moves[6]) == Ok(0)
            && (forall m :: 1 < m <= 6 ==> |start[m].scanners| == 1 && start[m].scanners[0].Some?)
            && Entry(1, Rank(REALTIME, 1)) in Queued(start[6].levels)
  {
    OvertakenLevels();
    hide Submit, PopLevel, Queued, Ready, FourEmpty, LowOnly, LowAndRealtime;
  }

  lemma PopEmpty<M>(levels: Levels<M>, name: string)
    requires name in levels && levels[name].heap == []
    ensures PopLevel(levels, name) == (Err(QueueEmpty), levels)
  {
    assert levels[name := levels[name]] == levels;
  }

  lemma OnePush(e: Entry<nat>)
    ensures HeapPush([], e) == [e] && HeapPop([e]) == (e, [])
  {
    assert [] + [e] == [e];
  }

  // ---------- the loop ----------

  method ScanLevels(queue: MultiLevelQueue) returns (r: Result<Message>)
    requires queue.Valid()
    modifies queue, queue.own
    ensures queue.Valid() && queue.own == old(queue.own)
    ensures (r, queue.view) == Scan(old(queue.view), LEVELS)
  {
    var i := 0;
    r := Err(QueueEmpty);
    while i < |LEVELS|
      invariant 0 <= i <= |LEVELS| && queue.Valid() && queue.own == old(queue.own)
      invariant Scan(queue.view, LEVELS[i..]) == Scan(old(queue.view), LEVELS)
      invariant r == Err(QueueEmpty)
    {
      r := queue.Pop(LEVELS[i]);
      if r.Ok? {
        break;
      }
      i := i + 1;
    }
  }
}
