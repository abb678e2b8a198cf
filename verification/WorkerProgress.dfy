/** Where the runs of workers end: a run that has come to rest has settled every message, and every run can go
    on to rest, and every worker to its stop. */
module WorkerProgress {
  import opened BinaryHeap
  import opened Messages
  import opened MultiLevelQueues
  import opened QueueManagers
  import opened WorkerProtocol

  // ---------- where runs end ----------

  /** Nothing is left to do but submit, cancel, stop, or tick over an empty queue. */
  ghost predicate Rests(s: State) {
    forall step | Enabled(s, step) ::
      step.Produce? || step.Cancel? || step.Exit? ||
      (step.Tick? && (s.level.heap == [] || s.workers[step.w].maxBatch == 0))
  }

  /** A run that has come to rest, with a worker still going, has dealt with every accepted message: it
      is completed, failed or dropped. */
  lemma RestsMeansSettled(c: Config, run: seq<State>, steps: seq<Step>, i: nat, w: nat, m: Id)
    requires IsRun(c, run, steps) && Init(run[0]) && i < |run| && Rests(run[i])
    requires w < |run[i].workers| && !run[i].workers[w].exited && run[i].workers[w].maxBatch > 0
    requires forall v <- run[i].workers :: v.maxConcurrent > 0
    requires m in run[i].accepted
    ensures m in Settled(run[i])
  {
    EveryMessageIsInOnePlace(c, run, steps, i, m);
    InitOk(c, run[0]);
    RunKeeps(c, run, steps, i);
    var s := run[i];
    hide IsRun, Init, Inv, Rests, Enabled, Pending, Flying;
    forall v | 0 <= v < |s.workers|
      ensures s.workers[v].phase.Idle? && s.workers[v].running == {} && s.workers[v].batch == []
    {
      assert s.workers[v] in s.workers;
      RestingWorker(c, s, v);
    }
    NothingFlies(s, m);
    RestingQueue(s, w);
    assert !Pending(s, m) by {
      NothingPends(s, m);
    }
  }

  lemma NothingFlies(s: State, m: Id)
    requires forall v :: 0 <= v < |s.workers| ==> s.workers[v].running == {} && s.workers[v].batch == []
    ensures !Flying(s, m)
  {
  }

  lemma NothingPends(s: State, m: Id)
    requires s.level.heap == []
    ensures !Pending(s, m)
  {
  }

  lemma RestingQueue(s: State, w: nat)
    requires Rests(s) && w < |s.workers| && s.workers[w].phase.Idle? &&
             !s.workers[w].exited && s.workers[w].maxBatch > 0
    ensures s.level.heap == []
  {
    assert Enabled(s, Tick(w));
  }

  lemma RestingWorker(c: Config, s: State, v: nat)
    requires Inv(c, s) && Rests(s) && v < |s.workers| && s.workers[v].maxConcurrent > 0
    ensures s.workers[v].phase.Idle? && s.workers[v].running == {} && s.workers[v].batch == []
  {
    assert WorkerOk(s.workers[v]);
    assert s.workers[v].running == {} by {
      NoneRunning(c, s, v);
    }
    hide Inv;
    assert !Enabled(s, Release(v)) && !Enabled(s, PopNext(v)) && !Enabled(s, Spawn(v)) && !Enabled(s, BatchDone(v));
  }

  lemma NoneRunning(c: Config, s: State, v: nat)
    requires Inv(c, s) && Rests(s) && v < |s.workers|
    ensures s.workers[v].running == {}
  {
    hide Rests;
    forall m
      ensures m !in s.workers[v].running
    {
      if m in s.workers[v].running {
        RunningCanSucceed(c, s, v, m);
        NotAtRest(s, SucceedCall(v, m));
        assert false;
      }
    }
  }

  lemma RunningCanSucceed(c: Config, s: State, v: nat, m: Id)
    requires Inv(c, s) && v < |s.workers| && m in s.workers[v].running
    ensures Enabled(s, SucceedCall(v, m))
  {
    OnlyHere(s, v, m);
  }

  lemma NotAtRest(s: State, step: Step)
    requires Enabled(s, step) && (step.SucceedCall? || step.FailCall? || step.PopNext?)
    ensures !Rests(s)
  {
  }

  // ---------- every run can come to rest ----------

  /** Prepending a step to a run. */
  lemma RunAfter(c: Config, s: State, step: Step, run: seq<State>, steps: seq<Step>)
    requires IsRun(c, run, steps) && Enabled(s, step) && run[0] == Do(c, s, step)
    ensures IsRun(c, [s] + run, [step] + steps)
  {
    hide Enabled, Do;
    forall i | 0 <= i < |steps| + 1
      ensures Enabled(([s] + run)[i], ([step] + steps)[i])
      ensures ([s] + run)[i + 1] == Do(c, ([s] + run)[i], ([step] + steps)[i])
    {
      if i > 0 {
        assert ([s] + run)[i] == run[i - 1] && ([step] + steps)[i] == steps[i - 1];
      }
    }
  }

  predicate Resting(w: Worker) {
    w.phase.Idle? && w.running == {} && w.batch == []
  }

  /** Neither a submission nor a cancellation nor a stop. */
  predicate Ordinary(step: Step) {
    !step.Produce? && !step.Cancel? && !step.Exit?
  }

  /** A worker that is not at rest has something to do. */
  lemma HasStep(c: Config, s: State, v: nat) returns (step: Step)
    requires Inv(c, s) && v < |s.workers| && !Resting(s.workers[v]) && s.workers[v].maxConcurrent > 0
    ensures Enabled(s, step) && Ordinary(step) && !step.Tick? && step.w == v
  {
    var w := s.workers[v];
    assert WorkerOk(w);
    if m :| m in w.running {
      RunningCanSucceed(c, s, v, m);
      hide *;
      return SucceedCall(v, m);
    }
    hide Inv;
    step := if w.phase.Popping? then PopNext(v)
            else if w.batch == [] then BatchDone(v)
            else if w.slots < w.maxConcurrent then Spawn(v)
            else Release(v);
  }

  /** What the steps of a run leave of a worker's make. */
  lemma SameWorkers(c: Config, s: State, step: Step)
    requires Enabled(s, step) && Ordinary(step)
    ensures var s' := Do(c, s, step);
            && s'.accepted == s.accepted && |s'.workers| == |s.workers|
            && forall v :: 0 <= v < |s.workers| ==>
                 && s'.workers[v].maxBatch == s.workers[v].maxBatch
                 && s'.workers[v].maxConcurrent == s.workers[v].maxConcurrent
                 && s'.workers[v].exited == s.workers[v].exited
  {
    hide AfterFailure, PushOne, PopOne;
  }

  lemma StepKeepsRoom(c: Config, s: State, step: Step)
    requires Inv(c, s) && Enabled(s, step) && Ordinary(step) && !step.SucceedCall? && !step.FailCall?
    ensures |Do(c, s, step).level.heap| <= |s.level.heap|
  {
    hide PushOne, IsHeap, Payloads;
    PopOneMoves(s.level);
    FewerEntries(s.level.heap, PopOne(s.level).1.heap);
    hide PopOne;
  }

  lemma FewerEntries<T>(a: seq<T>, b: seq<T>)
    ensures multiset(b) <= multiset(a) ==> |b| <= |a|
  {
    assert |multiset(a)| == |a| && |multiset(b)| == |b|;
    if multiset(b) <= multiset(a) {
      assert multiset(a) == multiset(b) + (multiset(a) - multiset(b));
    }
  }

  /** A tick and a pop take one message from a queue that is not empty. */
  lemma TickAndPop(c: Config, s: State, w: nat)
    requires Inv(c, s) && w < |s.workers| && s.workers[w].phase.Idle? && !s.workers[w].exited
    requires s.workers[w].maxBatch > 0 && s.level.heap != []
    ensures Enabled(s, Tick(w)) && Enabled(Do(c, s, Tick(w)), PopNext(w))
    ensures |Do(c, Do(c, s, Tick(w)), PopNext(w)).level.heap| < |s.level.heap|
  {
    PopTakesLeast(s.level.heap);
    var rest := HeapPop(s.level.heap).1;
    assert |multiset(s.level.heap)| == |multiset(rest)| + 1;
    hide HeapPop, IsHeap;
  }

  /** With nothing pending and nothing in flight everything accepted is settled. */
  lemma NothingLeft(c: Config, s: State, m: Id)
    requires Inv(c, s) && m in s.accepted && s.level.heap == []
    requires forall v :: 0 <= v < |s.workers| ==> Resting(s.workers[v])
    ensures m in Settled(s)
  {
    InitInFlight(s.workers);
    assert m in multiset(s.accepted);
    assert m in Everywhere(s);
    hide WellFormed, Counted, Recorded;
  }

  /** A step other than a tick brings the end closer. */
  lemma StepCloser(c: Config, s: State, step: Step)
    requires Inv(c, s) && Enabled(s, step) && Ordinary(step) && !step.Tick?
    ensures var s' := Do(c, s, step);
            && Inv(c, s') && (forall m <- s'.accepted :: m in s'.msgs)
            && (Remaining(c, s') < Remaining(c, s)
                || (Remaining(c, s') == Remaining(c, s) && |s'.level.heap| <= |s.level.heap| &&
                    Work(c, s') < Work(c, s)))
  {
    hide Do, Enabled, Remaining, Work;
    CallsUseUpPotential(c, s, step);
    StepWork(c, s, step);
    StepKeeps(c, s, step);
    if !step.SucceedCall? && !step.FailCall? {
      StepKeepsRoom(c, s, step);
    }
  }

  lemma TickCloser(c: Config, s: State, w: nat)
    requires Inv(c, s) && w < |s.workers| && s.workers[w].phase.Idle? && !s.workers[w].exited
    requires s.workers[w].maxBatch > 0 && s.level.heap != []
    ensures Enabled(s, Tick(w)) && Enabled(Do(c, s, Tick(w)), PopNext(w))
    ensures var s' := Do(c, Do(c, s, Tick(w)), PopNext(w));
            && Inv(c, s') && (forall m <- s'.accepted :: m in s'.msgs)
            && Remaining(c, s') == Remaining(c, s) && |s'.level.heap| < |s.level.heap|
  {
    TickAndPop(c, s, w);
    hide Do, Enabled, Remaining;
    StepKeeps(c, s, Tick(w));
    CallsUseUpPotential(c, s, Tick(w));
    StepKeeps(c, Do(c, s, Tick(w)), PopNext(w));
    CallsUseUpPotential(c, Do(c, s, Tick(w)), PopNext(w));
  }

  /** The worker is still going and every worker has room to process something. */
  predicate Works(s: State, w: nat) {
    && w < |s.workers| && !s.workers[w].exited && s.workers[w].maxBatch > 0
    && forall v :: 0 <= v < |s.workers| ==> s.workers[v].maxConcurrent > 0
  }

  lemma StillWorks(c: Config, s: State, step: Step, w: nat)
    requires Enabled(s, step) && Ordinary(step) && Works(s, w)
    ensures Works(Do(c, s, step), w)
  {
    SameWorkers(c, s, step);
    hide Do, Enabled, Ordinary;
  }

  /** The run goes on from s without submissions, cancellations or stops, and settles everything accepted. */
  ghost predicate Settles(c: Config, s: State, run: seq<State>, steps: seq<Step>) {
    && IsRun(c, run, steps) && run[0] == s && (forall k :: 0 <= k < |steps| ==> Ordinary(steps[k]))
    && run[|steps|].accepted == s.accepted && forall m <- s.accepted :: m in Settled(run[|steps|])
  }

  lemma SettlesBefore(c: Config, s: State, step: Step, run: seq<State>, steps: seq<Step>)
    requires Enabled(s, step) && Ordinary(step) && Settles(c, Do(c, s, step), run, steps)
    ensures Settles(c, s, [s] + run, [step] + steps)
  {
    SameWorkers(c, s, step);
    hide Enabled, Do, Ordinary, Settled;
    RunAfter(c, s, step, run, steps);
    forall k | 0 <= k < |steps| + 1
      ensures Ordinary(([step] + steps)[k])
    {
      assert k > 0 ==> ([step] + steps)[k] == steps[k - 1];
    }
    assert ([s] + run)[|steps| + 1] == run[|steps|];
  }

  lemma AlreadySettled(c: Config, s: State)
    requires Inv(c, s) && s.level.heap == [] && forall v :: 0 <= v < |s.workers| ==> Resting(s.workers[v])
    ensures Settles(c, s, [s], [])
  {
    forall m <- s.accepted {
      NothingLeft(c, s, m);
    }
    hide Inv, Settled, Resting;
  }

  lemma Stirs(s: State) returns (v: nat)
    ensures v < |s.workers| ==> !Resting(s.workers[v])
    ensures v >= |s.workers| ==> forall i :: 0 <= i < |s.workers| ==> Resting(s.workers[i])
  {
    v := |s.workers|;
    if i: nat :| i < |s.workers| && !Resting(s.workers[i]) {
      v := i;
    }
  }

  lemma WorksMeans(s: State, w: nat)
    requires Works(s, w)
    ensures w < |s.workers| && !s.workers[w].exited && s.workers[w].maxBatch > 0
    ensures forall v :: 0 <= v < |s.workers| ==> s.workers[v].maxConcurrent > 0
  {
  }

  lemma RestingMeans(w: Worker)
    requires Resting(w)
    ensures w.phase.Idle?
  {
  }

  lemma TicksAreOrdinary(w: nat)
    ensures Ordinary(Tick(w)) && Ordinary(PopNext(w))
  {
  }

  /** From any state a run can get to, with a worker still going, there is a way on without submissions,
      cancellations or stops on which every accepted message is settled: no message is ever stuck. */
  lemma {:induction false} CanSettle(c: Config, s: State, w: nat) returns (run: seq<State>, steps: seq<Step>)
    requires Inv(c, s) && Works(s, w)
    ensures Settles(c, s, run, steps)
    decreases Remaining(c, s), |s.level.heap|, Work(c, s)
  {
    hide *;
    WorkIsLeft(c, s);
    WorksMeans(s, w);
    var v := Stirs(s);
    if v < |s.workers| {
      var step := HasStep(c, s, v);
      StepCloser(c, s, step);
      StillWorks(c, s, step, w);
      run, steps := CanSettle(c, Do(c, s, step), w);
      SettlesBefore(c, s, step, run, steps);
      run, steps := [s] + run, [step] + steps;
    } else if s.level.heap != [] {
      RestingMeans(s.workers[w]);
      TickCloser(c, s, w);
      TicksAreOrdinary(w);
      var t := Do(c, s, Tick(w));
      StillWorks(c, s, Tick(w), w);
      StillWorks(c, t, PopNext(w), w);
      run, steps := CanSettle(c, Do(c, t, PopNext(w)), w);
      SettlesBefore(c, t, PopNext(w), run, steps);
      SettlesBefore(c, s, Tick(w), [t] + run, [PopNext(w)] + steps);
      run, steps := [s] + ([t] + run), [Tick(w)] + ([PopNext(w)] + steps);
    } else {
      AlreadySettled(c, s);
      run, steps := [s], [];
    }
  }

  /** The run goes on from s by steps of this worker alone, none of them a tick, and stops it. */
  ghost predicate Stops(c: Config, s: State, w: nat, run: seq<State>, steps: seq<Step>) {
    && IsRun(c, run, steps) && run[0] == s && w < |run[|steps|].workers| && Stopped(run[|steps|].workers[w])
    && forall k :: 0 <= k < |steps| ==> !steps[k].Produce? && !steps[k].Tick? && steps[k].w == w
  }

  lemma StopsBefore(c: Config, s: State, w: nat, step: Step, run: seq<State>, steps: seq<Step>)
    requires Enabled(s, step) && !step.Produce? && !step.Tick? && step.w == w
    requires Stops(c, Do(c, s, step), w, run, steps)
    ensures Stops(c, s, w, [s] + run, [step] + steps)
  {
    hide Enabled, Do, Stopped;
    RunAfter(c, s, step, run, steps);
    forall k | 0 <= k < |steps| + 1
      ensures var x := ([step] + steps)[k]; !x.Produce? && !x.Tick? && x.w == w
    {
      assert k > 0 ==> ([step] + steps)[k] == steps[k - 1];
    }
    assert ([s] + run)[|steps| + 1] == run[|steps|];
  }

  /** What a worker at rest still has to do before it has stopped. */
  function ToStop(w: Worker): nat {
    (if w.cancelled then 0 else 1) + if w.exited then 0 else 1
  }

  lemma LastSteps(c: Config, s: State, w: nat) returns (step: Step)
    requires Inv(c, s) && w < |s.workers| && Resting(s.workers[w]) && !Stopped(s.workers[w])
    ensures Enabled(s, step) && (step.Release? || step.Cancel? || step.Exit?) && step.w == w
    ensures w < |Do(c, s, step).workers|
    ensures Do(c, s, step).workers[w].maxConcurrent == s.workers[w].maxConcurrent
    ensures !step.Release? ==> ToStop(Do(c, s, step).workers[w]) < ToStop(s.workers[w])
  {
    var worker := s.workers[w];
    assert WorkerOk(worker);
    hide Inv;
    step := if worker.slots > 0 then Release(w) else if !worker.cancelled then Cancel(w) else Exit(w);
  }

  lemma QuietCloser(c: Config, s: State, step: Step)
    requires Inv(c, s) && Enabled(s, step) && (step.Release? || step.Cancel? || step.Exit?)
    ensures var s' := Do(c, s, step);
            && Inv(c, s') && (forall m <- s'.accepted :: m in s'.msgs)
            && Remaining(c, s') == Remaining(c, s)
            && Work(c, s') <= Work(c, s) && (step.Release? ==> Work(c, s') < Work(c, s))
  {
    hide Do, Enabled, Remaining, Work;
    CallsUseUpPotential(c, s, step);
    StepWork(c, s, step);
    StepKeeps(c, s, step);
  }

  lemma OrdinaryMeans(step: Step)
    requires Ordinary(step)
    ensures !step.Produce?
  {
  }

  lemma StepToStop(c: Config, s: State, w: nat) returns (step: Step)
    requires Inv(c, s) && w < |s.workers| && s.workers[w].maxConcurrent > 0
    requires !(Resting(s.workers[w]) && Stopped(s.workers[w]))
    ensures Enabled(s, step) && !step.Produce? && !step.Tick? && step.w == w
    ensures var t := Do(c, s, step);
            && Inv(c, t) && (forall m <- t.accepted :: m in t.msgs)
            && w < |t.workers| && t.workers[w].maxConcurrent > 0
            && (|| Remaining(c, t) < Remaining(c, s)
                || (Remaining(c, t) == Remaining(c, s)
                    && (|| Work(c, t) < Work(c, s)
                        || (Work(c, t) == Work(c, s) && ToStop(t.workers[w]) < ToStop(s.workers[w])))))
  {
    hide *;
    if Resting(s.workers[w]) {
      step := LastSteps(c, s, w);
      QuietCloser(c, s, step);
    } else {
      step := HasStep(c, s, w);
      StepCloser(c, s, step);
      SameWorkers(c, s, step);
      OrdinaryMeans(step);
    }
  }

  lemma AlreadyStopped(c: Config, s: State, w: nat)
    requires w < |s.workers| && Stopped(s.workers[w])
    ensures Stops(c, s, w, [s], [])
  {
  }

  /** A worker can always be stopped: from any state a run can get to there is a way on, by its own steps
      and without another tick, on which its loop exits and all its processing is done. */
  lemma {:induction false} CanStop(c: Config, s: State, w: nat) returns (run: seq<State>, steps: seq<Step>)
    requires Inv(c, s) && w < |s.workers| && s.workers[w].maxConcurrent > 0
    ensures Stops(c, s, w, run, steps)
    decreases Remaining(c, s), Work(c, s), ToStop(s.workers[w])
  {
    hide *;
    WorkIsLeft(c, s);
    if Resting(s.workers[w]) && Stopped(s.workers[w]) {
      AlreadyStopped(c, s, w);
      run, steps := [s], [];
    } else {
      var step := StepToStop(c, s, w);
      run, steps := CanStop(c, Do(c, s, step), w);
      StopsBefore(c, s, w, step, run, steps);
      run, steps := [s] + run, [step] + steps;
    }
  }

  // ---------- one round of a worker's loop ----------

  /** Popping until the batch is full or the queue is empty, with nothing in between. */
  function PopBatch(c: Config, s: State, w: nat): State
    requires w < |s.workers|
    decreases if s.workers[w].phase.Popping? then s.workers[w].phase.left + 1 else 0
  {
    if s.workers[w].phase.Popping? then PopBatch(c, Do(c, s, PopNext(w)), w) else s
  }

  lemma {:induction false} TakeOneMore<M>(level: Level<M>, n: nat)
    requires PopOne(level).0.Ok?
    ensures var (r, next) := PopOne(level);
            TakeMany(level, n + 1) == ([r.value] + TakeMany(next, n).0, TakeMany(next, n).1)
  {
    var (r, next) := PopOne(level);
    if n == 0 {
      assert TakeMany(level, 0) == ([], level) && [] + [r.value] == [r.value] + [];
    } else {
      TakeOneMore(level, n - 1);
      var (ms, before) := TakeMany(next, n - 1);
      var (last, after) := PopOne(before);
      assert TakeMany(level, n) == ([r.value] + ms, before);
      assert last.Ok? ==> ([r.value] + ms) + [last.value] == [r.value] + (ms + [last.value]);
    }
    hide PopOne;
  }

  lemma {:induction false} TakeNone<M>(level: Level<M>, n: nat)
    requires PopOne(level).0.Err?
    ensures TakeMany(level, n) == ([], level)
  {
    hide PopOne;
    if n > 0 {
      TakeNone(level, n - 1);
    }
  }

  lemma PopStep(c: Config, s: State, w: nat)
    requires w < |s.workers| && s.workers[w].phase.Popping?
    ensures var t, worker, left := Do(c, s, PopNext(w)), s.workers[w], s.workers[w].phase.left;
            && |t.workers| == |s.workers|
            && if left > 0 && PopOne(s.level).0.Ok? then
                 && t.level == PopOne(s.level).1 && t.workers[w].phase == Popping(left - 1)
                 && t.workers[w].batch == worker.batch + [PopOne(s.level).0.value]
               else t.level == s.level && t.workers[w].phase == Spawning && t.workers[w].batch == worker.batch
  {
    hide PopOne;
  }

  lemma TakeNothing<M>(level: Level<M>, n: nat)
    requires n == 0 || PopOne(level).0.Err?
    ensures TakeMany(level, n) == ([], level)
  {
    hide PopOne;
    if n > 0 {
      TakeNone(level, n);
    }
  }

  /** What popping a batch is to leave behind. */
  predicate Took(t: State, w: nat, batch: seq<Id>, taken: (seq<Id>, Level<Id>)) {
    && w < |t.workers| && t.workers[w].phase == Spawning
    && t.workers[w].batch == batch + taken.0 && t.level == taken.1
  }

  lemma TookOneMore(t: State, w: nat, batch: seq<Id>, m: Id, taken: (seq<Id>, Level<Id>))
    requires Took(t, w, batch + [m], taken)
    ensures Took(t, w, batch, ([m] + taken.0, taken.1))
  {
    assert batch + [m] + taken.0 == batch + ([m] + taken.0);
  }

  lemma TookNothing(t: State, w: nat, batch: seq<Id>, level: Level<Id>)
    requires w < |t.workers| && t.workers[w].phase == Spawning && t.workers[w].batch == batch && t.level == level
    ensures Took(t, w, batch, ([], level))
  {
  }

  lemma PopBatchNext(c: Config, s: State, w: nat)
    requires w < |s.workers|
    ensures s.workers[w].phase.Popping? ==> PopBatch(c, s, w) == PopBatch(c, Do(c, s, PopNext(w)), w)
    ensures s.workers[w].phase == Spawning ==> PopBatch(c, s, w) == s
  {
    hide Do;
  }

  /** Popping the rest of a batch takes what comes first. */
  ghost predicate Takes(c: Config, s: State, w: nat) {
    && w < |s.workers| && s.workers[w].phase.Popping?
    && Took(PopBatch(c, s, w), w, s.workers[w].batch, TakeMany(s.level, s.workers[w].phase.left))
  }

  lemma TakesLast(c: Config, s: State, w: nat)
    requires w < |s.workers| && s.workers[w].phase.Popping?
    requires s.workers[w].phase.left == 0 || PopOne(s.level).0.Err?
    ensures Takes(c, s, w)
  {
    PopStep(c, s, w);
    hide PopOne, Do, TakeMany, Took, PopBatch;
    PopBatchNext(c, s, w);
    PopBatchNext(c, Do(c, s, PopNext(w)), w);
    TakeNothing(s.level, s.workers[w].phase.left);
    TookNothing(Do(c, s, PopNext(w)), w, s.workers[w].batch, s.level);
  }

  lemma TakesOneMore(c: Config, s: State, w: nat)
    requires w < |s.workers| && s.workers[w].phase.Popping? && s.workers[w].phase.left > 0
    requires PopOne(s.level).0.Ok? && Takes(c, Do(c, s, PopNext(w)), w)
    ensures Takes(c, s, w)
  {
    PopStep(c, s, w);
    hide PopOne, Do, TakeMany, Took, PopBatch;
    PopBatchNext(c, s, w);
    var next, left := Do(c, s, PopNext(w)), s.workers[w].phase.left;
    TakeOneMore(s.level, left - 1);
    TookOneMore(PopBatch(c, next, w), w, s.workers[w].batch, PopOne(s.level).0.value, TakeMany(next.level, left - 1));
  }

  lemma {:induction false} PopBatchTakes(c: Config, s: State, w: nat)
    requires w < |s.workers| && s.workers[w].phase.Popping?
    ensures Takes(c, s, w)
    decreases s.workers[w].phase.left
  {
    if s.workers[w].phase.left > 0 && PopOne(s.level).0.Ok? {
      PopStep(c, s, w);
      hide PopOne, Do, Takes;
      PopBatchTakes(c, Do(c, s, PopNext(w)), w);
      TakesOneMore(c, s, w);
    } else {
      hide PopOne, Takes;
      TakesLast(c, s, w);
    }
  }

  /** A round with nothing in between takes what a batch pop takes: as many of the messages that come first as
      the worker's batches hold, or as there are. */
  lemma RoundTakesBatch(c: Config, s: State, w: nat)
    requires Enabled(s, Tick(w)) && s.workers[w].batch == []
    ensures var t, (ms, level) := PopBatch(c, Do(c, s, Tick(w)), w), TakeMany(s.level, s.workers[w].maxBatch);
            w < |t.workers| && t.workers[w].phase.Spawning? && t.workers[w].batch == ms && t.level == level
  {
    PopBatchTakes(c, Do(c, s, Tick(w)), w);
    hide PopBatch, TakeMany;
    var ms := TakeMany(s.level, s.workers[w].maxBatch).0;
    assert [] + ms == ms;
  }
}
