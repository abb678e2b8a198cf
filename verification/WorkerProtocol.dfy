/** Workers and producers sharing one queue, as a step relation interleaved at lock boundaries.
    Every step that touches the queue is the queue's own operation (PushOne, PopOne, CompleteOne,
    FailOne), so what is proved here is about the same functions the imperative queue is proved
    against. */
module WorkerProtocol {
  import opened BinaryHeap
  import opened Collections
  import opened Messages
  import opened MultiLevelQueues
  import opened QueueManagers

  // ---------- what a failed processing call does ----------

  datatype Fate = Retried | Dropped | GaveUp

  /** handleFailure on an existing queue.  A retry raises the retry count, lets the priority rules
      look at the message again and re-pushes it; the push error is ignored, so a full queue drops
      the message.  ProcessingCount is lowered only when the worker gives up. */
  function AfterFailure<M>(level: Level<M>, m: M, d: MessageData, rules: seq<Rule>, maxRetries: int, now: int)
    : (Fate, Level<M>, MessageData)
  {
    if d.retryCount < maxRetries then
      var counted := d.(retryCount := d.retryCount + 1);
      var again := counted.(priority := RulePriority(rules, counted));
      var (r, level') := PushOne(level, Entry(m, Rank(again.priority, now)));
      (if r.Ok? then Retried else Dropped, level', again)
    else (GaveUp, FailOne(level), d)
  }

  // ---------- states ----------

  /** Stands for a *Message: the identity of one message. */
  type Id = nat

  /** Where a worker's processLoop is. */
  datatype Phase = Idle | Popping(left: nat) | Spawning

  /** batch: popped but not yet handed to a goroutine; running: inside processMessage;
      slots: semaphore tokens taken, released after processMessage returns. */
  datatype Worker = Worker(maxBatch: nat, maxConcurrent: nat, phase: Phase, batch: seq<Id>, running: set<Id>,
                           slots: nat, cancelled: bool, exited: bool)

  datatype Config = Config(rules: seq<Rule>, maxRetries: int)

  datatype State = State(level: Level<Id>, msgs: map<Id, MessageData>, workers: seq<Worker>,
                         completed: set<Id>, failed: set<Id>, dropped: set<Id>,
                         accepted: seq<Id>,  // the messages producers pushed successfully, in order
                         pushes: nat,        // successful pushes, first ones and retries
                         retries: nat,       // retry branches taken
                         calls: nat)         // processing calls that have returned

  // ---------- steps ----------

  datatype Step =
    | Produce(m: Id, d: MessageData, now: int)
    | Tick(w: nat)
    | PopNext(w: nat)
    | Spawn(w: nat)
    | BatchDone(w: nat)
    | SucceedCall(w: nat, m: Id)
    | FailCall(w: nat, m: Id, now: int)
    | Release(w: nat)
    | Cancel(w: nat)
    | Exit(w: nat)

  predicate Enabled(s: State, step: Step) {
    match step
    case Produce(m, d, now) => m !in s.msgs
    case Tick(w) => w < |s.workers| && s.workers[w].phase.Idle? && !s.workers[w].exited
    case PopNext(w) => w < |s.workers| && s.workers[w].phase.Popping?
    case Spawn(w) =>
      && w < |s.workers| && s.workers[w].phase.Spawning? && s.workers[w].batch != []
      && s.workers[w].slots < s.workers[w].maxConcurrent
    case BatchDone(w) => w < |s.workers| && s.workers[w].phase.Spawning? && s.workers[w].batch == []
    case SucceedCall(w, m) => w < |s.workers| && m in s.workers[w].running && m in s.msgs
    case FailCall(w, m, now) => w < |s.workers| && m in s.workers[w].running && m in s.msgs
    case Release(w) => w < |s.workers| && s.workers[w].slots > |s.workers[w].running|
    case Cancel(w) => w < |s.workers|
    case Exit(w) => w < |s.workers| && s.workers[w].phase.Idle? && s.workers[w].cancelled
  }

  function Put(s: State, w: nat, worker: Worker): State
    requires w < |s.workers|
  {
    s.(workers := s.workers[w := worker])
  }

  function Do(c: Config, s: State, step: Step): State
    requires Enabled(s, step)
  {
    match step
    case Produce(m, d, now) =>
      var ruled := d.(priority := RulePriority(c.rules, d));
      var (r, level) := PushOne(s.level, Entry(m, Rank(ruled.priority, now)));
      if r.Err? then s
      else s.(level := level, msgs := s.msgs[m := ruled], accepted := s.accepted + [m], pushes := s.pushes + 1)
    case Tick(w) => Put(s, w, s.workers[w].(phase := Popping(s.workers[w].maxBatch)))
    case PopNext(w) =>
      var worker := s.workers[w];
      if worker.phase.left == 0 then Put(s, w, worker.(phase := Spawning))
      else
        var (r, level) := PopOne(s.level);
        (match r
         case Err(_) => Put(s, w, worker.(phase := Spawning))
         case Ok(m) =>
           Put(s, w, worker.(phase := Popping(worker.phase.left - 1), batch := worker.batch + [m])).(level := level))
    case Spawn(w) =>
      var worker := s.workers[w];
      Put(s, w, worker.(batch := worker.batch[1..], running := worker.running + {worker.batch[0]},
                        slots := worker.slots + 1))
    case BatchDone(w) => Put(s, w, s.workers[w].(phase := Idle))
    case SucceedCall(w, m) =>
      Put(s, w, s.workers[w].(running := s.workers[w].running - {m}))
      .(level := CompleteOne(s.level), completed := s.completed + {m}, calls := s.calls + 1)
    case FailCall(w, m, now) =>
      var (fate, level, d) := AfterFailure(s.level, m, s.msgs[m], c.rules, c.maxRetries, now);
      var s' := Put(s, w, s.workers[w].(running := s.workers[w].running - {m}))
                .(level := level, msgs := s.msgs[m := d], calls := s.calls + 1);
      (match fate
       case Retried => s'.(pushes := s.pushes + 1, retries := s.retries + 1)
       case Dropped => s'.(dropped := s.dropped + {m}, retries := s.retries + 1)
       case GaveUp => s'.(failed := s.failed + {m}))
    case Release(w) => Put(s, w, s.workers[w].(slots := s.workers[w].slots - 1))
    case Cancel(w) => Put(s, w, s.workers[w].(cancelled := true))
    case Exit(w) => Put(s, w, s.workers[w].(exited := true))
  }

  ghost predicate IsRun(c: Config, run: seq<State>, steps: seq<Step>) {
    && |run| == |steps| + 1
    && forall i :: 0 <= i < |steps| ==> Enabled(run[i], steps[i]) && run[i + 1] == Do(c, run[i], steps[i])
  }

  /** An empty queue and idle workers. */
  ghost predicate Init(s: State) {
    && s.level == EmptyLevel(s.level.maxSize)
    && (forall w <- s.workers ::
          w.phase.Idle? && w.batch == [] && w.running == {} && w.slots == 0 && !w.cancelled && !w.exited)
    && s.completed == s.failed == s.dropped == {} && s.accepted == [] && s.msgs == map[]
    && s.pushes == s.retries == s.calls == 0
  }

  // ---------- where messages are ----------

  function Payloads<M>(h: seq<Entry<M>>): multiset<M> {
    if h == [] then multiset{} else multiset{h[0].payload} + Payloads(h[1..])
  }

  lemma {:induction false} PayloadsSplit<M>(h: seq<Entry<M>>, k: nat)
    requires k < |h|
    ensures Payloads(h) == Payloads(h[..k] + h[k + 1..]) + multiset{h[k].payload}
  {
    if k == 0 {
      assert h[..0] + h[1..] == h[1..];
      return;
    }
    var rest, tail := h[..k] + h[k + 1..], h[1..][..k - 1] + h[1..][k..];
    WithoutInTail(h, k);
    assert Payloads(h) == multiset{h[0].payload} + Payloads(h[1..]);
    assert Payloads(rest) == multiset{h[0].payload} + Payloads(tail);
    hide Payloads;
    PayloadsSplit(h[1..], k - 1);
  }

  lemma WithoutInTail<T>(s: seq<T>, k: nat)
    requires 0 < k < |s|
    ensures var rest := s[..k] + s[k + 1..];
            rest[0] == s[0] && rest[1..] == s[1..][..k - 1] + s[1..][k..] && s[1..][k - 1] == s[k]
  {
  }

  lemma WithoutOne<T>(s: seq<T>, k: nat)
    requires k < |s|
    ensures multiset(s[..k] + s[k + 1..]) == multiset(s) - multiset{s[k]}
  {
    assert s == s[..k] + [s[k]] + s[k + 1..];
  }

  lemma {:induction false} PayloadsPermute<M>(a: seq<Entry<M>>, b: seq<Entry<M>>)
    requires multiset(a) == multiset(b)
    ensures Payloads(a) == Payloads(b)
    decreases |a|
  {
    if a == [] {
      assert |multiset(b)| == 0;
      return;
    }
    var k := MatchFirst(a, b);
    assert Payloads(a) == multiset{a[0].payload} + Payloads(a[1..]);
    hide Payloads;
    PayloadsPermute(a[1..], b[..k] + b[k + 1..]);
    PayloadsSplit(b, k);
  }

  lemma MatchFirst<T>(a: seq<T>, b: seq<T>) returns (k: nat)
    requires a != [] && multiset(a) == multiset(b)
    ensures k < |b| && b[k] == a[0] && multiset(a[1..]) == multiset(b[..k] + b[k + 1..])
  {
    assert a[0] in multiset(b);
    k :| 0 <= k < |b| && b[k] == a[0];
    WithoutOne(b, k);
    WithoutOne(a, 0);
    assert a[..0] + a[1..] == a[1..];
  }

  function Held(w: Worker): multiset<Id> {
    multiset(w.batch) + multiset(w.running)
  }

  function InFlight(ws: seq<Worker>): multiset<Id> {
    if ws == [] then multiset{} else Held(ws[0]) + InFlight(ws[1..])
  }

  /** What the workers other than w hold. */
  function Others(ws: seq<Worker>, w: nat): multiset<Id>
    requires w < |ws|
  {
    InFlight(ws[..w] + ws[w + 1..])
  }

  lemma {:induction false} InFlightSplit(ws: seq<Worker>, w: nat)
    requires w < |ws|
    ensures InFlight(ws) == Others(ws, w) + Held(ws[w])
  {
    hide Held;
    if w == 0 {
      assert ws[..0] + ws[1..] == ws[1..];
      return;
    }
    var rest, tail := ws[..w] + ws[w + 1..], ws[1..][..w - 1] + ws[1..][w..];
    WithoutInTail(ws, w);
    assert InFlight(ws) == Held(ws[0]) + InFlight(ws[1..]);
    assert InFlight(rest) == Held(ws[0]) + InFlight(tail);
    hide InFlight;
    InFlightSplit(ws[1..], w - 1);
  }

  lemma InFlightUpdate(ws: seq<Worker>, w: nat, worker: Worker)
    requires w < |ws|
    ensures InFlight(ws) == Others(ws, w) + Held(ws[w])
    ensures InFlight(ws[w := worker]) == Others(ws, w) + Held(worker)
  {
    InFlightSplit(ws, w);
    InFlightSplit(ws[w := worker], w);
    assert ws[w := worker][..w] + ws[w := worker][w + 1..] == ws[..w] + ws[w + 1..];
  }

  /** Every message, counted once for each place it is in. */
  function Everywhere(s: State): multiset<Id> {
    Payloads(s.level.heap) + InFlight(s.workers)
    + multiset(s.completed) + multiset(s.failed) + multiset(s.dropped)
  }

  // ---------- what a push and a pop do to the pending messages ----------

  lemma PushOneMoves<M>(level: Level<M>, e: Entry<M>)
    requires WellFormed(level)
    ensures var (r, level') := PushOne(level, e);
            && WellFormed(level')
            && (r.Ok? ==> Payloads(level'.heap) == Payloads(level.heap) + multiset{e.payload})
            && (r.Ok? ==> multiset(level'.heap) == multiset(level.heap) + multiset{e} &&
                           |level'.heap| == |level.heap| + 1)
            && (r.Ok? ==> level'.stats == level.stats.(pending := level.stats.pending + 1))
            && (r.Err? <==> level.maxSize > 0 && |level.heap| >= level.maxSize)
            && (r.Err? ==> level' == level)
  {
    var (r, level') := PushOne(level, e);
    if r.Ok? {
      PushAdds(level.heap, e);
      assert ([e] + level.heap)[1..] == level.heap;
      PayloadsPermute(level'.heap, [e] + level.heap);
    }
  }

  lemma PopOneMoves<M>(level: Level<M>)
    requires WellFormed(level)
    ensures var (r, level') := PopOne(level);
            && WellFormed(level')
            && (r.Ok? ==> Payloads(level.heap) == Payloads(level'.heap) + multiset{r.value})
            && (r.Ok? ==> multiset(level'.heap) <= multiset(level.heap))
            && (r.Err? <==> level.heap == [])
            && (r.Err? ==> level' == level)
            && var st := level.stats;
               (r.Ok? ==> level'.stats == st.(pending := st.pending - 1, processing := st.processing + 1))
  {
    if level.heap != [] {
      PopTakesLeast(level.heap);
      var (e, rest) := HeapPop(level.heap);
      assert ([e] + rest)[1..] == rest;
      PayloadsPermute(level.heap, [e] + rest);
    }
  }

  // ---------- the invariant ----------

  ghost predicate WorkerOk(w: Worker) {
    && (w.batch != [] ==> !w.phase.Idle?)
    && (w.exited ==> w.phase.Idle?)
    && |w.running| <= w.slots <= w.maxConcurrent
  }

  /** Each accepted message is in exactly one place, once. */
  ghost predicate Conserved(s: State) {
    && Everywhere(s) == multiset(s.accepted)
    && (forall m <- s.accepted :: m in s.msgs && multiset(s.accepted)[m] == 1)
  }

  /** The queue's counters against the places: ProcessingCount runs ahead of the messages in flight
      by exactly the retry branches taken. */
  ghost predicate Counted(s: State) {
    var st := s.level.stats;
    && st.pending == |s.level.heap|
    && st.processing == |InFlight(s.workers)| + s.retries
    && st.completed == |s.completed|
    && st.failed == |s.failed|
    && st.pending + st.processing + st.completed + st.failed == s.pushes
  }

  /** A message fails for good only when its retries are used up; a queued message still has the
      priority it was queued with. */
  ghost predicate Recorded(c: Config, failed: set<Id>, heap: seq<Entry<Id>>, msgs: map<Id, MessageData>) {
    && (forall m <- failed :: m in msgs && msgs[m].retryCount >= c.maxRetries)
    && (forall e <- heap :: e.payload in msgs && e.rank.major == msgs[e.payload].priority)
  }

  ghost predicate Inv(c: Config, s: State) {
    && WellFormed(s.level)
    && (forall i :: 0 <= i < |s.workers| ==> WorkerOk(s.workers[i]))
    && Conserved(s) && Counted(s)
    && Recorded(c, s.failed, s.level.heap, s.msgs)
  }

  lemma {:induction false} InitInFlight(ws: seq<Worker>)
    requires forall w <- ws :: w.batch == [] && w.running == {}
    ensures InFlight(ws) == multiset{}
  {
    if ws != [] {
      assert ws[0] in ws;
      InitInFlight(ws[1..]);
    }
  }

  lemma InitOk(c: Config, s: State)
    requires Init(s)
    ensures Inv(c, s)
  {
    InitInFlight(s.workers);
  }

  // ---------- every step keeps the invariant ----------

  /** A step that only moves messages within one worker, or moves none. */
  lemma WorkerStepKeeps(c: Config, s: State, w: nat, worker: Worker)
    requires Inv(c, s) && w < |s.workers|
    requires WorkerOk(worker) && Held(worker) == Held(s.workers[w])
    ensures Inv(c, Put(s, w, worker))
  {
    hide IsHeap, WorkerOk, Held, InFlight, Others, Recorded, Payloads;
    InFlightUpdate(s.workers, w, worker);
  }

  lemma RecordedMore(c: Config, failed: set<Id>, heap: seq<Entry<Id>>, msgs: map<Id, MessageData>,
                     e: Entry<Id>, d: MessageData, heap': seq<Entry<Id>>)
    requires Recorded(c, failed, heap, msgs)
    requires e.payload !in failed && (forall x <- heap :: x.payload != e.payload)
    requires e.rank.major == d.priority && multiset(heap') <= multiset(heap) + multiset{e}
    ensures Recorded(c, failed, heap', msgs[e.payload := d])
  {
    forall x <- heap'
      ensures x == e || x in heap
    {
      assert x in multiset(heap');
    }
  }

  lemma {:induction false} PayloadsIn<M>(h: seq<Entry<M>>, m: M)
    ensures m in Payloads(h) <==> exists x <- h :: x.payload == m
  {
    if h != [] {
      PayloadsIn(h[1..], m);
      assert h == [h[0]] + h[1..];
    }
  }

  lemma ProduceKeeps(c: Config, s: State, m: Id, d: MessageData, now: int)
    requires Inv(c, s) && m !in s.msgs
    ensures Inv(c, Do(c, s, Produce(m, d, now)))
  {
    hide PushOne, WorkerOk, IsHeap, InFlight, Payloads, Recorded, RulePriority, Conserved, WellFormed;
    var ruled := d.(priority := RulePriority(c.rules, d));
    var e := Entry(m, Rank(ruled.priority, now));
    PushOneMoves(s.level, e);
    var (r, level) := PushOne(s.level, e);
    if r.Err? {
      return;
    }
    FailedKnown(c, s);
    FreshConserves(s, level.heap, m, ruled);
    PayloadsIn(s.level.heap, m);
    RecordedMore(c, s.failed, s.level.heap, s.msgs, e, ruled, level.heap);
    var s' := s.(level := level, msgs := s.msgs[m := ruled], accepted := s.accepted + [m], pushes := s.pushes + 1);
    ConservedByPlaces(s.(level := s.level.(heap := level.heap), msgs := s'.msgs, accepted := s'.accepted), s');
    assert Counted(s');
  }

  lemma ConservedByPlaces(s: State, s': State)
    requires Conserved(s) && s'.accepted == s.accepted && s'.msgs == s.msgs
    requires s'.level.heap == s.level.heap && s'.workers == s.workers
    requires s'.completed == s.completed && s'.failed == s.failed && s'.dropped == s.dropped
    ensures Conserved(s')
  {
  }

  lemma FailedKnown(c: Config, s: State)
    requires Recorded(c, s.failed, s.level.heap, s.msgs)
    ensures forall x <- s.failed :: x in s.msgs
  {
  }

  lemma FreshConserves(s: State, heap: seq<Entry<Id>>, m: Id, d: MessageData)
    requires Conserved(s) && m !in s.msgs && (forall x <- s.failed :: x in s.msgs)
    requires Payloads(heap) == Payloads(s.level.heap) + multiset{m}
    ensures Conserved(s.(level := s.level.(heap := heap), msgs := s.msgs[m := d], accepted := s.accepted + [m]))
    ensures m !in Payloads(s.level.heap) && m !in s.failed
  {
    hide Payloads, InFlight;
    var s' := s.(level := s.level.(heap := heap), msgs := s.msgs[m := d], accepted := s.accepted + [m]);
    assert m !in s.accepted;
    assert m !in multiset(s.accepted);
    assert Everywhere(s') == Everywhere(s) + multiset{m};
    hide Everywhere;
    assert multiset(s.accepted + [m]) == multiset(s.accepted) + multiset{m};
  }

  lemma PopKeeps(c: Config, s: State, w: nat)
    requires Inv(c, s) && Enabled(s, PopNext(w)) && s.workers[w].phase.left > 0
    ensures Inv(c, Do(c, s, PopNext(w)))
  {
    hide PopOne, WorkerOk, IsHeap, Held, Conserved, Counted, Recorded, WellFormed;
    PopOneMoves(s.level);
    var (r, level) := PopOne(s.level);
    var worker := s.workers[w];
    if r.Err? {
      var worker' := worker.(phase := Spawning);
      WorkerOkPop(worker, worker');
      SameHeld(worker, worker');
      WorkerStepKeeps(c, s, w, worker');
    } else {
      PopMoves(c, s, w, level, r.value);
    }
  }

  lemma PopMoves(c: Config, s: State, w: nat, level: Level<Id>, m: Id)
    requires Inv(c, s) && w < |s.workers| && s.workers[w].phase.Popping? && s.workers[w].phase.left > 0
    requires WellFormed(level) && multiset(level.heap) <= multiset(s.level.heap)
    requires Payloads(s.level.heap) == Payloads(level.heap) + multiset{m}
    requires level.stats == s.level.stats.(pending := s.level.stats.pending - 1,
                                           processing := s.level.stats.processing + 1)
    ensures var worker := s.workers[w].(phase := Popping(s.workers[w].phase.left - 1),
                                        batch := s.workers[w].batch + [m]);
            Inv(c, Put(s, w, worker).(level := level))
  {
    hide WorkerOk, IsHeap, InFlight, Others, Payloads, Recorded, Conserved, Held;
    var worker := s.workers[w];
    var worker' := worker.(phase := Popping(worker.phase.left - 1), batch := worker.batch + [m]);
    WorkerOkPop(worker, worker');
    HeldPop(worker, m);
    MoveConserves(s, w, worker', level, multiset{m});
    InFlightUpdate(s.workers, w, worker');
    RecordedLess(c, s.failed, s.level.heap, s.msgs, level.heap);
  }

  lemma HeldPop(w: Worker, m: Id)
    requires w.phase.Popping? && w.phase.left > 0
    ensures Held(w.(phase := Popping(w.phase.left - 1), batch := w.batch + [m])) == Held(w) + multiset{m}
  {
  }

  /** Messages that leave the queue for a worker, or the other way round. */
  lemma MoveConserves(s: State, w: nat, worker: Worker, level: Level<Id>, moved: multiset<Id>)
    requires Conserved(s) && w < |s.workers|
    requires || (Held(worker) == Held(s.workers[w]) + moved && Payloads(s.level.heap) == Payloads(level.heap) + moved)
             || (Held(s.workers[w]) == Held(worker) + moved && Payloads(level.heap) == Payloads(s.level.heap) + moved)
    ensures Conserved(Put(s, w, worker).(level := level))
  {
    hide Payloads, InFlight, Others, Held;
    InFlightUpdate(s.workers, w, worker);
  }

  lemma WorkerOkPop(w: Worker, w': Worker)
    requires WorkerOk(w) && w.phase.Popping?
    requires !w'.phase.Idle? && w'.exited == w.exited && w'.running == w.running && w'.slots == w.slots
             && w'.maxConcurrent == w.maxConcurrent
    ensures WorkerOk(w')
  {
  }

  lemma RecordedLess(c: Config, failed: set<Id>, heap: seq<Entry<Id>>, msgs: map<Id, MessageData>,
                     heap': seq<Entry<Id>>)
    requires Recorded(c, failed, heap, msgs) && multiset(heap') <= multiset(heap)
    ensures Recorded(c, failed, heap', msgs)
  {
    forall x <- heap'
      ensures x in heap
    {
      assert x in multiset(heap');
    }
  }

  lemma SucceedKeeps(c: Config, s: State, w: nat, m: Id)
    requires Inv(c, s) && Enabled(s, SucceedCall(w, m))
    ensures Inv(c, Do(c, s, SucceedCall(w, m)))
  {
    hide WorkerOk, IsHeap, InFlight, Others, Payloads, Recorded, Conserved;
    var worker' := s.workers[w].(running := s.workers[w].running - {m});
    WorkerOkFinish(s.workers[w], m);
    InFlightUpdate(s.workers, w, worker');
    OnlyHere(s, w, m);
    EndConserves(s, w, worker', Do(c, s, SucceedCall(w, m)), m);
  }

  lemma WorkerOkFinish(w: Worker, m: Id)
    requires WorkerOk(w) && m in w.running
    ensures WorkerOk(w.(running := w.running - {m}))
    ensures Held(w) == Held(w.(running := w.running - {m})) + multiset{m}
  {
    assert w.running == (w.running - {m}) + {m};
  }

  /** A message being processed is in no other place. */
  lemma OnlyHere(s: State, w: nat, m: Id)
    requires Conserved(s) && w < |s.workers| && m in s.workers[w].running
    ensures m !in s.completed && m !in s.failed && m !in s.dropped
    ensures m !in Payloads(s.level.heap)
    ensures m in s.msgs && m in s.accepted
  {
    hide Payloads, InFlight, Others;
    InFlightSplit(s.workers, w);
    assert Everywhere(s)[m] >= 1;
    assert m in multiset(s.accepted);
    assert m in s.accepted;
  }

  /** What AfterFailure comes to, in terms of the queue's state before it. */
  lemma AfterFailureMeans(level: Level<Id>, m: Id, d: MessageData, rules: seq<Rule>, maxRetries: int, now: int)
    requires WellFormed(level)
    ensures var (fate, level', d') := AfterFailure(level, m, d, rules, maxRetries, now);
            && WellFormed(level')
            && (d.retryCount < maxRetries ==> d'.priority == RulePriority(rules, d.(retryCount := d.retryCount + 1)))
            && d' == d.(retryCount := d'.retryCount, priority := d'.priority)
            && match fate
               case Retried =>
                 && d.retryCount < maxRetries && d'.retryCount == d.retryCount + 1
                 && Payloads(level'.heap) == Payloads(level.heap) + multiset{m}
                 && multiset(level'.heap) == multiset(level.heap) + multiset{Entry(m, Rank(d'.priority, now))}
                 && level'.stats == level.stats.(pending := level.stats.pending + 1)
               case Dropped =>
                 && d.retryCount < maxRetries && d'.retryCount == d.retryCount + 1
                 && level' == level && level.maxSize > 0 && |level.heap| >= level.maxSize
               case GaveUp =>
                 && d.retryCount >= maxRetries && d' == d && level' == FailOne(level)
  {
    hide PushOne, Payloads, IsHeap, RulePriority;
    var counted := d.(retryCount := d.retryCount + 1);
    var again := counted.(priority := RulePriority(rules, counted));
    var e := Entry(m, Rank(again.priority, now));
    PushOneMoves(level, e);
    if d.retryCount < maxRetries {
      var (r, level') := PushOne(level, e);
      assert AfterFailure(level, m, d, rules, maxRetries, now) == (if r.Ok? then Retried else Dropped, level', again);
    }
  }

  /** A submission is accepted exactly if there is room; the message then waits with the priority that the
      rules give it, and is otherwise as it was submitted. */
  lemma SubmittedIff(c: Config, s: State, m: Id, d: MessageData, now: int)
    requires Inv(c, s) && Enabled(s, Produce(m, d, now))
    ensures var s', priority := Do(c, s, Produce(m, d, now)), RulePriority(c.rules, d);
            if Full(s.level) then s' == s
            else
              && s'.accepted == s.accepted + [m] && s'.msgs == s.msgs[m := d.(priority := priority)]
              && multiset(s'.level.heap) == multiset(s.level.heap) + multiset{Entry(m, Rank(priority, now))}
              && s'.workers == s.workers && Settled(s') == Settled(s)
  {
    hide PushOne, IsHeap, Payloads, RulePriority, Conserved, Counted, Recorded;
    var ruled := d.(priority := RulePriority(c.rules, d));
    var e := Entry(m, Rank(ruled.priority, now));
    PushOneMoves(s.level, e);
    var (r, level) := PushOne(s.level, e);
    assert Do(c, s, Produce(m, d, now)).level == level;
  }

  /** Messages of a worker that end in one of the three outcome sets. */
  lemma EndConserves(s: State, w: nat, worker: Worker, s': State, m: Id)
    requires Conserved(s) && w < |s.workers| && m in s.workers[w].running
    requires Held(s.workers[w]) == Held(worker) + multiset{m}
    requires s'.workers == s.workers[w := worker] && s'.level.heap == s.level.heap
    requires s'.accepted == s.accepted && s'.msgs.Keys == s.msgs.Keys
    requires || (s'.completed == s.completed + {m} && s'.failed == s.failed && s'.dropped == s.dropped)
             || (s'.completed == s.completed && s'.failed == s.failed + {m} && s'.dropped == s.dropped)
             || (s'.completed == s.completed && s'.failed == s.failed && s'.dropped == s.dropped + {m})
    ensures Conserved(s')
  {
    hide Payloads, InFlight, Others, Held;
    OnlyHere(s, w, m);
    InFlightUpdate(s.workers, w, worker);
  }

  lemma FailConserves(c: Config, s: State, w: nat, m: Id, now: int)
    requires Inv(c, s) && Enabled(s, FailCall(w, m, now))
    ensures Conserved(Do(c, s, FailCall(w, m, now)))
  {
    hide PushOne, WorkerOk, IsHeap, InFlight, Others, Payloads, Recorded, RulePriority, Conserved, Counted;
    var worker' := s.workers[w].(running := s.workers[w].running - {m});
    WorkerOkFinish(s.workers[w], m);
    OnlyHere(s, w, m);
    AfterFailureMeans(s.level, m, s.msgs[m], c.rules, c.maxRetries, now);
    var (fate, level, d) := AfterFailure(s.level, m, s.msgs[m], c.rules, c.maxRetries, now);
    hide AfterFailure;
    var s' := Do(c, s, FailCall(w, m, now));
    if fate.Retried? {
      MoveConserves(s, w, worker', level, multiset{m});
      var moved := Put(s, w, worker').(level := level);
      SameMessages(moved, s');
    } else {
      EndConserves(s, w, worker', s', m);
    }
  }

  lemma SameMessages(s: State, s': State)
    requires Conserved(s)
    requires s'.level == s.level && s'.workers == s.workers && s'.accepted == s.accepted && s'.msgs.Keys == s.msgs.Keys
    requires s'.completed == s.completed && s'.failed == s.failed && s'.dropped == s.dropped
    ensures Conserved(s')
  {
  }

  lemma FailCounts(c: Config, s: State, w: nat, m: Id, now: int)
    requires Inv(c, s) && Enabled(s, FailCall(w, m, now))
    ensures Counted(Do(c, s, FailCall(w, m, now)))
  {
    hide PushOne, WorkerOk, IsHeap, InFlight, Others, Payloads, Recorded, RulePriority, Conserved;
    var worker' := s.workers[w].(running := s.workers[w].running - {m});
    WorkerOkFinish(s.workers[w], m);
    InFlightUpdate(s.workers, w, worker');
    OnlyHere(s, w, m);
    AfterFailureMeans(s.level, m, s.msgs[m], c.rules, c.maxRetries, now);
    var (fate, level, d) := AfterFailure(s.level, m, s.msgs[m], c.rules, c.maxRetries, now);
    hide AfterFailure;
  }

  lemma FailKeeps(c: Config, s: State, w: nat, m: Id, now: int)
    requires Inv(c, s) && Enabled(s, FailCall(w, m, now))
    ensures Inv(c, Do(c, s, FailCall(w, m, now)))
  {
    hide PushOne, WorkerOk, IsHeap, InFlight, Others, Payloads, Recorded, RulePriority, Conserved, Counted;
    FailConserves(c, s, w, m, now);
    FailCounts(c, s, w, m, now);
    WorkerOkFinish(s.workers[w], m);
    OnlyHere(s, w, m);
    var (fate, level, d) := AfterFailure(s.level, m, s.msgs[m], c.rules, c.maxRetries, now);
    AfterFailureMeans(s.level, m, s.msgs[m], c.rules, c.maxRetries, now);
    hide AfterFailure;
    var e := Entry(m, Rank(d.priority, now));
    PayloadsIn(s.level.heap, m);
    if fate.Retried? {
      RecordedMore(c, s.failed, s.level.heap, s.msgs, e, d, level.heap);
    } else if fate.Dropped? {
      RecordedMore(c, s.failed, s.level.heap, s.msgs, e, d, s.level.heap);
    } else {
      assert s.msgs[m := d] == s.msgs;
      RecordedGaveUp(c, s.failed, s.level.heap, s.msgs, m);
    }
  }

  lemma RecordedGaveUp(c: Config, failed: set<Id>, heap: seq<Entry<Id>>, msgs: map<Id, MessageData>, m: Id)
    requires Recorded(c, failed, heap, msgs) && m in msgs && msgs[m].retryCount >= c.maxRetries
    ensures Recorded(c, failed + {m}, heap, msgs)
  {
  }

  /** Every step keeps the invariant. */
  lemma StepKeeps(c: Config, s: State, step: Step)
    requires Inv(c, s) && Enabled(s, step)
    ensures Inv(c, Do(c, s, step))
  {
    match step
    case Produce(m, d, now) => ProduceKeeps(c, s, m, d, now);
    case PopNext(w) =>
      if s.workers[w].phase.left > 0 {
        PopKeeps(c, s, w);
      } else {
        QuietKeeps(c, s, step, w);
      }
    case SucceedCall(w, m) => SucceedKeeps(c, s, w, m);
    case FailCall(w, m, now) => FailKeeps(c, s, w, m, now);
    case Spawn(w) => QuietKeeps(c, s, step, w);
    case Tick(w) => QuietKeeps(c, s, step, w);
    case BatchDone(w) => QuietKeeps(c, s, step, w);
    case Release(w) => QuietKeeps(c, s, step, w);
    case Cancel(w) => QuietKeeps(c, s, step, w);
    case Exit(w) => QuietKeeps(c, s, step, w);
  }

  lemma SpawnMoves(w: Worker)
    requires WorkerOk(w) && w.phase.Spawning? && w.batch != [] && w.slots < w.maxConcurrent
    requires w.batch[0] !in w.running
    ensures var w' := w.(batch := w.batch[1..], running := w.running + {w.batch[0]}, slots := w.slots + 1);
            WorkerOk(w') && Held(w') == Held(w)
  {
    assert w.batch == [w.batch[0]] + w.batch[1..];
  }

  /** A message waiting in a batch is not also being processed. */
  lemma NotTwice(s: State, w: nat)
    requires Conserved(s) && w < |s.workers| && s.workers[w].batch != []
    ensures s.workers[w].batch[0] !in s.workers[w].running
  {
    hide Payloads, InFlight, Others;
    InFlightSplit(s.workers, w);
    var m := s.workers[w].batch[0];
    assert m in multiset(s.workers[w].batch);
    assert Everywhere(s)[m] >= multiset(s.workers[w].batch)[m] + multiset(s.workers[w].running)[m];
    assert m in multiset(s.accepted);
    assert m in s.accepted;
  }

  lemma SameHeld(w: Worker, w': Worker)
    requires w'.batch == w.batch && w'.running == w.running
    ensures Held(w') == Held(w)
  {
  }

  /** Ticks, spawns, semaphore releases, cancellation: the queue is not touched. */
  lemma QuietKeeps(c: Config, s: State, step: Step, w: nat)
    requires Inv(c, s) && Enabled(s, step)
    requires !step.Produce? && !step.SucceedCall? && !step.FailCall? && w == step.w
    requires step.PopNext? ==> s.workers[w].phase.left == 0
    ensures Inv(c, Do(c, s, step))
  {
    hide WellFormed, Conserved, Counted, Recorded, Held;
    var worker := s.workers[w];
    var worker' := Do(c, s, step).workers[w];
    if step.Spawn? {
      NotTwice(s, w);
      SpawnMoves(worker);
    } else {
      SameHeld(worker, worker');
    }
    WorkerStepKeeps(c, s, w, worker');
  }

  // ---------- what holds in every run ----------

  lemma {:induction false} RunKeeps(c: Config, run: seq<State>, steps: seq<Step>, i: nat)
    requires IsRun(c, run, steps) && i < |run|
    requires Inv(c, run[0])
    ensures Inv(c, run[i])
  {
    if i > 0 {
      RunKeeps(c, run, steps, i - 1);
      StepKeeps(c, run[i - 1], steps[i - 1]);
    }
  }

  /** The places a message can be in. */
  ghost predicate Pending(s: State, m: Id) {
    exists e <- s.level.heap :: e.payload == m
  }

  ghost predicate Flying(s: State, m: Id) {
    exists w <- s.workers :: m in w.batch || m in w.running
  }

  function One(b: bool): nat {
    if b then 1 else 0
  }

  lemma {:induction false} FlyingIs(ws: seq<Worker>, m: Id)
    ensures m in InFlight(ws) <==> exists w <- ws :: m in w.batch || m in w.running
  {
    if ws != [] {
      FlyingIs(ws[1..], m);
      assert ws == [ws[0]] + ws[1..];
      assert m in multiset(ws[0].batch) <==> m in ws[0].batch;
    }
  }

  /** In every run, under every interleaving of producers and workers: an accepted message is
      pending, in flight, completed, failed or dropped, and only one of these; a message never
      accepted is nowhere. */
  lemma EveryMessageIsInOnePlace(c: Config, run: seq<State>, steps: seq<Step>, i: nat, m: Id)
    requires IsRun(c, run, steps) && Init(run[0]) && i < |run|
    ensures var s := run[i];
            One(Pending(s, m)) + One(Flying(s, m)) + One(m in s.completed) + One(m in s.failed) + One(m in s.dropped)
            == One(m in s.accepted)
  {
    InitOk(c, run[0]);
    RunKeeps(c, run, steps, i);
    var s := run[i];
    hide Payloads, InFlight, WellFormed, Counted, Recorded;
    PayloadsIn(s.level.heap, m);
    FlyingIs(s.workers, m);
    assert m in multiset(s.accepted) <==> m in s.accepted;
    assert multiset(s.accepted)[m] == One(m in s.accepted);
    assert Everywhere(s)[m] == One(m in s.accepted);
  }

  predicate Full<M>(level: Level<M>) {
    level.maxSize > 0 && |level.heap| >= level.maxSize
  }

  /** A processing call of m fails with retries left while the queue is full. */
  predicate Loses(c: Config, s: State, step: Step, m: Id) {
    step.FailCall? && step.m == m && m in s.msgs && s.msgs[m].retryCount < c.maxRetries && Full(s.level)
  }

  /** A step drops a message exactly if its retry finds the queue full. */
  lemma DroppedIffFull(c: Config, s: State, step: Step, m: Id)
    requires Inv(c, s) && Enabled(s, step)
    ensures m in Do(c, s, step).dropped <==> m in s.dropped || Loses(c, s, step, m)
    ensures Do(c, s, step).level.maxSize == s.level.maxSize
  {
    hide WellFormed, Conserved, Counted, Recorded, IsHeap;
    if step.FailCall? {
      AfterFailureMeans(s.level, step.m, s.msgs[step.m], c.rules, c.maxRetries, step.now);
      hide AfterFailure;
      BoundKept(s.level);
    }
  }

  /** In every run the messages lost are exactly those that some retry could not push back. */
  lemma {:induction false} LostIffRetryRefused(c: Config, run: seq<State>, steps: seq<Step>, i: nat, m: Id)
    requires IsRun(c, run, steps) && Init(run[0]) && i < |run|
    ensures m in run[i].dropped <==> exists k :: 0 <= k < i && Loses(c, run[k], steps[k], m)
    ensures run[i].level.maxSize == run[0].level.maxSize
  {
    InitOk(c, run[0]);
    hide Do, Enabled, Loses, Inv;
    if i > 0 {
      LostIffRetryRefused(c, run, steps, i - 1, m);
      RunKeeps(c, run, steps, i - 1);
      DroppedIffFull(c, run[i - 1], steps[i - 1], m);
      assert run[i - 1 + 1] == Do(c, run[i - 1], steps[i - 1]);
    }
  }

  /** So an unbounded queue never loses one. */
  lemma UnboundedLosesNone(c: Config, run: seq<State>, steps: seq<Step>, i: nat)
    requires IsRun(c, run, steps) && Init(run[0]) && i < |run| && run[0].level.maxSize <= 0
    ensures run[i].dropped == {}
  {
    forall m
      ensures m !in run[i].dropped
    {
      LostIffRetryRefused(c, run, steps, i, m);
      if k :| 0 <= k < i && Loses(c, run[k], steps[k], m) {
        LostIffRetryRefused(c, run, steps, k, m);
        assert false;
      }
    }
  }

  lemma OneEntryHeap(e: Entry<Id>)
    ensures HeapPush([], e) == [e] && HeapPop([e]) == (e, [])
  {
    assert [] + [e] == [e];
  }

  const LONE: Worker := Worker(1, 1, Idle, [], {}, 0, false, false)

  function LostSteps(d: MessageData): seq<Step> {
    [Produce(0, d, 0), Tick(0), PopNext(0), PopNext(0), Spawn(0), Produce(1, d, 1), FailCall(0, 0, 2)]
  }

  function Stage(level: Level<Id>, worker: Worker, d: MessageData): State {
    State(level, map[0 := d], [worker], {}, {}, {}, [0], 1, 0, 0)
  }

  /** Message 0 on its way from the queue of one into a processing call, and lost there. */
  function Stages(d: MessageData): seq<State> {
    var queued, taken := Level(1, [Entry(0, Rank(d.priority, 0))], Stats(1, 0, 0, 0)), Level(1, [], Stats(0, 1, 0, 0));
    var full := Level(1, [Entry(1, Rank(d.priority, 1))], Stats(1, 1, 0, 0));
    var working := LONE.(phase := Spawning, running := {0}, slots := 1);
    [State(EmptyLevel(1), map[], [LONE], {}, {}, {}, [], 0, 0, 0),
     Stage(queued, LONE, d),
     Stage(queued, LONE.(phase := Popping(1)), d),
     Stage(taken, LONE.(phase := Popping(0), batch := [0]), d),
     Stage(taken, LONE.(phase := Spawning, batch := [0]), d),
     Stage(taken, working, d),
     State(full, map[0 := d, 1 := d], [working], {}, {}, {}, [0, 1], 2, 0, 0),
     State(full, map[0 := d.(retryCount := 1), 1 := d], [working.(running := {})], {}, {}, {0}, [0, 1], 2, 1, 1)]
  }

  lemma StageStep(c: Config, d: MessageData, k: nat)
    requires c == Config([], 1) && k < 5
    ensures Enabled(Stages(d)[k], LostSteps(d)[k])
    ensures Stages(d)[k + 1] == Do(c, Stages(d)[k], LostSteps(d)[k])
  {
    OneEntryHeap(Entry(0, Rank(d.priority, 0)));
    hide HeapPush, HeapPop;
    var s := Stages(d)[k];
    assert s.workers[0 := Stages(d)[k + 1].workers[0]] == Stages(d)[k + 1].workers;
    assert [] + [0] == [0];
    if k == 0 {
      assert map[][0 := d] == map[0 := d];
    } else if k == 4 {
      assert [0][1..] == [] && {} + {0} == {0};
    }
  }

  lemma SecondArrives(c: Config, d: MessageData)
    requires c == Config([], 1)
    ensures Enabled(Stages(d)[5], LostSteps(d)[5])
    ensures Stages(d)[6] == Do(c, Stages(d)[5], LostSteps(d)[5])
  {
    OneEntryHeap(Entry(1, Rank(d.priority, 1)));
    hide HeapPush;
    assert [0] + [1] == [0, 1];
    assert map[0 := d][1 := d] == map[0 := d, 1 := d];
  }

  lemma FirstIsLost(c: Config, d: MessageData)
    requires c == Config([], 1) && d.retryCount == 0
    ensures Enabled(Stages(d)[6], LostSteps(d)[6])
    ensures Stages(d)[7] == Do(c, Stages(d)[6], LostSteps(d)[6])
  {
    var s, t := Stages(d)[6], Stages(d)[7];
    assert s.workers[0 := t.workers[0]] == t.workers;
    assert s.msgs[0 := d.(retryCount := 1)] == t.msgs;
    assert {0} - {0} == {} && {} + {0} == {0};
  }

  /** A concrete run: message 0 is taken, message 1 fills the queue of one, the call for 0 fails, and 0
      is lost although it was accepted and had a retry left.  The retry also leaves ProcessingCount at 1
      with nothing in flight. */
  lemma RetryLosesMessage(d: MessageData) returns (c: Config, run: seq<State>, steps: seq<Step>)
    requires d.retryCount == 0
    ensures IsRun(c, run, steps) && Init(run[0]) && |steps| == 7
    ensures run[7].accepted == [0, 1] && run[7].dropped == {0}
    ensures InFlight(run[7].workers) == multiset{} && run[7].level.stats.processing == 1
  {
    c, run, steps := Config([], 1), Stages(d), LostSteps(d);
    assert Init(run[0]);
    var w := run[7].workers;
    assert InFlight(w) == multiset{} by {
      assert w[1..] == [] && Held(w[0]) == multiset{};
      assert InFlight(w) == Held(w[0]) + InFlight(w[1..]);
    }
    SecondArrives(c, d);
    FirstIsLost(c, d);
    hide Init, Enabled, Do, InFlight;
    forall k | 0 <= k < 7
      ensures Enabled(run[k], steps[k]) && run[k + 1] == Do(c, run[k], steps[k])
    {
      if k < 5 {
        StageStep(c, d, k);
      }
    }
  }

  lemma BoundKept(level: Level<Id>)
    requires WellFormed(level)
    ensures level.maxSize > 0 ==> |level.heap| <= level.maxSize
  {
  }

  /** The counters in every run: Pending is the queue's length, Completed and Failed are exact,
      the four add up to the accepted pushes, and Processing exceeds the messages in flight by the
      retry branches taken.  So Processing is exact just when no retry has happened. */
  lemma CountersInEveryRun(c: Config, run: seq<State>, steps: seq<Step>, i: nat)
    requires IsRun(c, run, steps) && Init(run[0]) && i < |run|
    ensures var s := run[i]; var st := s.level.stats;
            && st.pending == |s.level.heap|
            && st.completed == |s.completed| && st.failed == |s.failed|
            && st.pending + st.processing + st.completed + st.failed == s.pushes
            && st.processing == |InFlight(s.workers)| + s.retries
            && (st.processing == |InFlight(s.workers)| <==> s.retries == 0)
  {
    InitOk(c, run[0]);
    RunKeeps(c, run, steps, i);
  }

  /** Stop returns once the loop has exited and every goroutine has released its slot. */
  ghost predicate Stopped(w: Worker) {
    w.exited && w.slots == 0
  }

  /** At most maxConcurrent messages of a worker are being processed, and a stopped worker leaves
      none of what it popped behind. */
  lemma WorkersAreBounded(c: Config, run: seq<State>, steps: seq<Step>, i: nat, w: nat)
    requires IsRun(c, run, steps) && Init(run[0]) && i < |run| && w < |run[i].workers|
    ensures var worker := run[i].workers[w];
            && |worker.running| <= worker.maxConcurrent
            && (Stopped(worker) ==> worker.batch == [] && worker.running == {})
  {
    InitOk(c, run[0]);
    RunKeeps(c, run, steps, i);
  }

  // ---------- termination ----------

  /** How many processing calls a live message can still take part in. */
  function Weight(c: Config, d: MessageData): int {
    if d.retryCount < c.maxRetries then 1 + c.maxRetries - d.retryCount else 1
  }

  function Settled(s: State): set<Id> {
    s.completed + s.failed + s.dropped
  }

  function Potential(c: Config, ids: seq<Id>, settled: set<Id>, msgs: map<Id, MessageData>): (p: nat)
    requires forall m <- ids :: m in msgs
  {
    if ids == [] then 0 else
    (if ids[0] in settled then 0 else Weight(c, msgs[ids[0]])) + Potential(c, ids[1..], settled, msgs)
  }

  lemma {:induction false} PotentialSettles(c: Config, ids: seq<Id>, settled: set<Id>, msgs: map<Id, MessageData>,
                                            m: Id)
    requires forall x <- ids :: x in msgs
    ensures Potential(c, ids, settled + {m}, msgs) <= Potential(c, ids, settled, msgs)
    ensures m in ids && m !in settled ==> Potential(c, ids, settled + {m}, msgs) < Potential(c, ids, settled, msgs)
  {
    if ids != [] {
      PotentialSettles(c, ids[1..], settled, msgs, m);
    }
  }

  lemma {:induction false} PotentialRetries(c: Config, ids: seq<Id>, settled: set<Id>, msgs: map<Id, MessageData>,
                                            m: Id, d: MessageData)
    requires forall x <- ids :: x in msgs
    requires m in msgs && Weight(c, d) < Weight(c, msgs[m])
    ensures Potential(c, ids, settled, msgs[m := d]) <= Potential(c, ids, settled, msgs)
    ensures m in ids && m !in settled ==> Potential(c, ids, settled, msgs[m := d]) < Potential(c, ids, settled, msgs)
  {
    if ids != [] {
      PotentialRetries(c, ids[1..], settled, msgs, m, d);
    }
  }

  ghost function Remaining(c: Config, s: State): nat
    requires forall m <- s.accepted :: m in s.msgs
  {
    Potential(c, s.accepted, Settled(s), s.msgs)
  }

  /** A processing call strictly lowers what remains, whether it succeeds or fails; no other step of
      a worker changes it. */
  lemma CallsUseUpPotential(c: Config, s: State, step: Step)
    requires Inv(c, s) && Enabled(s, step) && !step.Produce?
    ensures var s' := Do(c, s, step);
            && s'.accepted == s.accepted && s'.msgs.Keys == s.msgs.Keys
            && if step.SucceedCall? || step.FailCall?
            then s'.calls == s.calls + 1 && Remaining(c, s') < Remaining(c, s)
            else s'.calls == s.calls && Remaining(c, s') == Remaining(c, s)
  {
    hide WellFormed, Counted, Recorded, WorkerOk, Potential, PushOne, PopOne;
    match step
    case SucceedCall(w, m) =>
      SucceedUses(c, s, w, m);
    case FailCall(w, m, now) =>
      FailUses(c, s, w, m, now);
    case _ =>
      hide AfterFailure;
  }

  lemma SucceedUses(c: Config, s: State, w: nat, m: Id)
    requires Inv(c, s) && Enabled(s, SucceedCall(w, m))
    ensures var s' := Do(c, s, SucceedCall(w, m));
            && s'.calls == s.calls + 1 && s'.accepted == s.accepted && s'.msgs == s.msgs
            && Remaining(c, s') < Remaining(c, s)
  {
    hide WellFormed, Counted, Recorded, WorkerOk, Potential;
    OnlyHere(s, w, m);
    PotentialSettles(c, s.accepted, Settled(s), s.msgs, m);
    assert Settled(Do(c, s, SucceedCall(w, m))) == Settled(s) + {m};
  }

  /** What a failed call leaves, apart from the worker and the queue. */
  lemma FailLeaves(c: Config, s: State, w: nat, m: Id, now: int)
    requires Enabled(s, FailCall(w, m, now))
    ensures var (fate, level, d) := AfterFailure(s.level, m, s.msgs[m], c.rules, c.maxRetries, now);
            var s' := Do(c, s, FailCall(w, m, now));
            && s'.calls == s.calls + 1 && s'.accepted == s.accepted && s'.msgs == s.msgs[m := d]
            && Settled(s') == if fate.Retried? then Settled(s) else Settled(s) + {m}
  {
    hide AfterFailure;
  }

  lemma FailUses(c: Config, s: State, w: nat, m: Id, now: int)
    requires Inv(c, s) && Enabled(s, FailCall(w, m, now))
    ensures var s' := Do(c, s, FailCall(w, m, now));
            && s'.calls == s.calls + 1 && s'.accepted == s.accepted && s'.msgs.Keys == s.msgs.Keys
            && Remaining(c, s') < Remaining(c, s)
  {
    hide WellFormed, Counted, Recorded, WorkerOk, Potential;
    OnlyHere(s, w, m);
    AfterFailureMeans(s.level, m, s.msgs[m], c.rules, c.maxRetries, now);
    FailLeaves(c, s, w, m, now);
    var (fate, level, d) := AfterFailure(s.level, m, s.msgs[m], c.rules, c.maxRetries, now);
    hide AfterFailure, Do, Settled;
    var s' := Do(c, s, FailCall(w, m, now));
    PotentialSettles(c, s.accepted, Settled(s), s'.msgs, m);
    if fate.GaveUp? {
      assert s'.msgs == s.msgs;
    } else {
      PotentialRetries(c, s.accepted, Settled(s), s.msgs, m, d);
    }
  }

  /** The calls made since the start of a run are paid for by the potential used up. */
  lemma {:induction false} RunPaidFor(c: Config, run: seq<State>, steps: seq<Step>, i: nat)
    requires IsRun(c, run, steps) && i < |run| && Inv(c, run[0])
    requires forall k :: 0 <= k < |steps| ==> !steps[k].Produce?
    ensures Inv(c, run[i]) && run[i].calls + Remaining(c, run[i]) <= run[0].calls + Remaining(c, run[0])
  {
    hide Do, Enabled, Inv, Remaining;
    if i > 0 {
      RunPaidFor(c, run, steps, i - 1);
      CallsUseUpPotential(c, run[i - 1], steps[i - 1]);
      StepKeeps(c, run[i - 1], steps[i - 1]);
    }
  }

  /** Without new submissions the processing calls come to an end, even if every one of them fails:
      any further run makes at most Remaining calls. */
  lemma CallsAreBounded(c: Config, run: seq<State>, steps: seq<Step>, i: nat)
    requires IsRun(c, run, steps) && i < |run|
    requires Inv(c, run[0])
    requires forall k :: 0 <= k < |steps| ==> !steps[k].Produce?
    ensures run[i].calls - run[0].calls <= Remaining(c, run[0])
  {
    hide Do, Enabled;
    RunPaidFor(c, run, steps, i);
  }

  // ---------- how much work there is ----------

  /** A pop, a start, a call and a release for each call that remains, less what a worker has already done
      of it; and what it takes to end the round of its loop. */
  function Ahead(w: Worker): int {
    w.slots - |w.batch| - 3 * |w.running| +
      match w.phase
      case Idle => 0
      case Popping(_) => 2
      case Spawning => 1
  }

  function SumAhead(ws: seq<Worker>): int {
    if ws == [] then 0 else Ahead(ws[0]) + SumAhead(ws[1..])
  }

  ghost function Work(c: Config, s: State): int
    requires forall m <- s.accepted :: m in s.msgs
  {
    4 * Remaining(c, s) + SumAhead(s.workers)
  }

  /** What a step may add: it takes a tick to start another round. */
  function Cost(step: Step): int {
    match step
    case Tick(_) => 2
    case Cancel(_) => 0
    case Exit(_) => 0
    case _ => -1
  }

  lemma {:induction false} SumAheadUpdate(ws: seq<Worker>, i: nat, w: Worker)
    requires i < |ws|
    ensures SumAhead(ws[i := w]) == SumAhead(ws) - Ahead(ws[i]) + Ahead(w)
  {
    if i == 0 {
      assert ws[0 := w][1..] == ws[1..];
    } else {
      SumAheadUpdate(ws[1..], i - 1, w);
      assert ws[i := w][1..] == ws[1..][i - 1 := w];
    }
  }

  lemma {:induction false} SumAheadBound(ws: seq<Worker>)
    ensures SumAhead(ws) >= -3 * |InFlight(ws)|
  {
    if ws != [] {
      SumAheadBound(ws[1..]);
      assert |Held(ws[0])| == |ws[0].batch| + |ws[0].running|;
    }
  }

  lemma {:induction false} PotentialSame(c: Config, ids: seq<Id>, a: set<Id>, b: set<Id>, msgs: map<Id, MessageData>)
    requires forall m <- ids :: m in msgs && (m in a <==> m in b)
    ensures Potential(c, ids, a, msgs) == Potential(c, ids, b, msgs)
  {
    if ids != [] {
      PotentialSame(c, ids[1..], a, b, msgs);
    }
  }

  /** Every message that is not settled has a call left. */
  lemma {:induction false} PotentialCovers(c: Config, ids: seq<Id>, settled: set<Id>, msgs: map<Id, MessageData>)
    requires forall m <- ids :: m in msgs
    requires forall i, j :: 0 <= i < j < |ids| ==> ids[i] != ids[j]
    ensures Potential(c, ids, settled, msgs) >= |ids| - |settled|
  {
    if ids != [] {
      var m := ids[0];
      if m in settled {
        PotentialCovers(c, ids[1..], settled - {m}, msgs);
        PotentialSame(c, ids[1..], settled, settled - {m}, msgs);
      } else {
        PotentialCovers(c, ids[1..], settled, msgs);
      }
    }
  }

  lemma AcceptedOnce(s: State)
    requires Conserved(s)
    ensures forall i, j :: 0 <= i < j < |s.accepted| ==> s.accepted[i] != s.accepted[j]
  {
    forall i, j | 0 <= i < j < |s.accepted|
      ensures s.accepted[i] != s.accepted[j]
    {
      if s.accepted[i] == s.accepted[j] {
        OccursTwice(s.accepted, i, j);
        assert false;
      }
    }
  }

  lemma SettledSize(s: State)
    requires Conserved(s)
    ensures |s.accepted| - |Settled(s)| >= |InFlight(s.workers)|
  {
    assert |Everywhere(s)| == |multiset(s.accepted)| == |s.accepted|;
    assert |s.completed + s.failed| <= |s.completed| + |s.failed|;
    assert |Settled(s)| <= |s.completed + s.failed| + |s.dropped|;
  }

  lemma WorkIsLeft(c: Config, s: State)
    requires Inv(c, s)
    ensures Work(c, s) >= 0
  {
    AcceptedOnce(s);
    SettledSize(s);
    hide InFlight, Everywhere;
    PotentialCovers(c, s.accepted, Settled(s), s.msgs);
    SumAheadBound(s.workers);
  }

  lemma StepWork(c: Config, s: State, step: Step)
    requires Inv(c, s) && Enabled(s, step) && !step.Produce?
    ensures var s' := Do(c, s, step);
            (forall m <- s'.accepted :: m in s'.msgs) && Work(c, s') <= Work(c, s) + Cost(step)
  {
    CallsUseUpPotential(c, s, step);
    StepAhead(c, s, step);
    hide Do, Enabled, Remaining, SumAhead;
  }

  function Bonus(step: Step): int {
    if step.SucceedCall? || step.FailCall? then 4 else 0
  }

  lemma StepAhead(c: Config, s: State, step: Step)
    requires Inv(c, s) && Enabled(s, step) && !step.Produce?
    ensures SumAhead(Do(c, s, step).workers) <= SumAhead(s.workers) + Cost(step) + Bonus(step)
  {
    OneWorkerMoves(c, s, step);
    WorkerAhead(c, s, step);
    hide Do, Enabled, Inv, SumAhead, Ahead;
    SumAheadUpdate(s.workers, step.w, Do(c, s, step).workers[step.w]);
  }

  lemma OneWorkerMoves(c: Config, s: State, step: Step)
    requires Enabled(s, step) && !step.Produce?
    ensures step.w < |s.workers| == |Do(c, s, step).workers|
    ensures Do(c, s, step).workers == s.workers[step.w := Do(c, s, step).workers[step.w]]
  {
    hide PushOne, PopOne, AfterFailure;
  }

  lemma WorkerAhead(c: Config, s: State, step: Step)
    requires Inv(c, s) && Enabled(s, step) && !step.Produce?
    ensures step.w < |s.workers| == |Do(c, s, step).workers|
    ensures Ahead(Do(c, s, step).workers[step.w]) <= Ahead(s.workers[step.w]) + Cost(step) + Bonus(step)
  {
    OneWorkerMoves(c, s, step);
    if step.Spawn? {
      NotTwice(s, step.w);
      SpawnAhead(c, s, step);
    } else if step.SucceedCall? || step.FailCall? {
      CallAhead(c, s, step);
    } else if step.PopNext? {
      PopAhead(c, s, step);
    } else {
      QuietAhead(c, s, step);
    }
    hide *;
  }

  lemma SpawnAhead(c: Config, s: State, step: Step)
    requires Enabled(s, step) && step.Spawn? && s.workers[step.w].batch[0] !in s.workers[step.w].running
    ensures step.w < |Do(c, s, step).workers|
    ensures Ahead(Do(c, s, step).workers[step.w]) <= Ahead(s.workers[step.w]) + Cost(step) + Bonus(step)
  {
    var w := s.workers[step.w];
    assert |w.running + {w.batch[0]}| == |w.running| + 1;
  }

  lemma CallAhead(c: Config, s: State, step: Step)
    requires Enabled(s, step) && (step.SucceedCall? || step.FailCall?)
    ensures step.w < |s.workers| == |Do(c, s, step).workers|
    ensures Ahead(Do(c, s, step).workers[step.w]) <= Ahead(s.workers[step.w]) + Cost(step) + Bonus(step)
  {
    hide AfterFailure;
    var w := s.workers[step.w];
    assert |w.running - {step.m}| == |w.running| - 1;
    assert Do(c, s, step).workers[step.w] == w.(running := w.running - {step.m});
    hide Do;
  }

  lemma PopAhead(c: Config, s: State, step: Step)
    requires Enabled(s, step) && step.PopNext?
    ensures step.w < |s.workers| == |Do(c, s, step).workers|
    ensures Ahead(Do(c, s, step).workers[step.w]) <= Ahead(s.workers[step.w]) + Cost(step) + Bonus(step)
  {
    hide PopOne;
  }

  lemma QuietAhead(c: Config, s: State, step: Step)
    requires Enabled(s, step) && (step.Tick? || step.BatchDone? || step.Release? || step.Cancel? || step.Exit?)
    ensures step.w < |s.workers| == |Do(c, s, step).workers|
    ensures Ahead(Do(c, s, step).workers[step.w]) <= Ahead(s.workers[step.w]) + Cost(step) + Bonus(step)
  {
    hide AfterFailure, PushOne, PopOne;
  }

  /** How many of the first i steps are neither a tick nor a cancellation or exit. */
  function Moves(steps: seq<Step>, i: nat): nat
    requires i <= |steps|
  {
    if i == 0 then 0 else Moves(steps, i - 1) + if Cost(steps[i - 1]) < 0 then 1 else 0
  }

  function Ticks(steps: seq<Step>, i: nat): nat
    requires i <= |steps|
  {
    if i == 0 then 0 else Ticks(steps, i - 1) + if steps[i - 1].Tick? then 1 else 0
  }

  lemma {:induction false} RunWork(c: Config, run: seq<State>, steps: seq<Step>, i: nat)
    requires IsRun(c, run, steps) && i < |run| && Inv(c, run[0])
    requires forall k :: 0 <= k < |steps| ==> !steps[k].Produce?
    ensures Inv(c, run[i])
    ensures Work(c, run[i]) + Moves(steps, i) <= Work(c, run[0]) + 2 * Ticks(steps, i)
  {
    hide Do, Enabled, Inv, Work;
    if i > 0 {
      RunWork(c, run, steps, i - 1);
      StepKeeps(c, run[i - 1], steps[i - 1]);
      StepWork(c, run[i - 1], steps[i - 1]);
    }
  }

  /** Without new submissions the work comes to an end, not only the calls: apart from ticks, two steps for
      each tick, and cancellations, a run has at most Work steps. */
  lemma StepsAreBounded(c: Config, run: seq<State>, steps: seq<Step>, i: nat)
    requires IsRun(c, run, steps) && i < |run| && Inv(c, run[0])
    requires forall k :: 0 <= k < |steps| ==> !steps[k].Produce?
    ensures Moves(steps, i) <= Work(c, run[0]) + 2 * Ticks(steps, i)
  {
    RunWork(c, run, steps, i);
    WorkIsLeft(c, run[i]);
  }
}
