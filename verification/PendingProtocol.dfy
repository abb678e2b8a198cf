/** The pending queue of the resource scheduler under interleaving: the lock is free between taking
    the queue out, trying each request, and putting survivors back. */
module PendingProtocol {
  import opened Resources
  import opened ResourceSchedulers

  /** A queued request and its arrival number. */
  datatype Ticket = Ticket(number: nat, q: Request)

  /** A drain in progress: what it still has to try, and what it has kept. */
  datatype Drain = Drain(todo: seq<Ticket>, remaining: seq<Ticket>)

  datatype State = State(queue: seq<Ticket>, drains: seq<Drain>, granted: multiset<Ticket>, timedOut: multiset<Ticket>,
                         next: nat)

  datatype Step =
    | Enqueue(q: Request)
    | StartDrain
    | TryNext(d: nat, fate: Fate)
    | FinishDrain(d: nat)

  function InsertTicket(queue: seq<Ticket>, t: Ticket): (r: seq<Ticket>)
    ensures multiset(r) == multiset(queue) + multiset{t}
  {
    if queue == [] then [t]
    else if t.q.priority > queue[0].q.priority then [t] + queue
    else
      assert queue == [queue[0]] + queue[1..];
      [queue[0]] + InsertTicket(queue[1..], t)
  }

  function Requests(ts: seq<Ticket>): (r: seq<Request>)
    ensures |r| == |ts|
    ensures forall k :: 0 <= k < |r| ==> r[k] == ts[k].q
  {
    if ts == [] then [] else [ts[0].q] + Requests(ts[1..])
  }

  /** Forgetting the arrival numbers, this is the scheduler's own insertion. */
  lemma {:induction false} InsertTicketIsInsert(queue: seq<Ticket>, t: Ticket)
    ensures Requests(InsertTicket(queue, t)) == InsertByPriority(Requests(queue), t.q)
  {
    if queue != [] {
      InsertTicketIsInsert(queue[1..], t);
      if t.q.priority > queue[0].q.priority {
        assert ([t] + queue)[1..] == queue;
      } else {
        var rest := InsertTicket(queue[1..], t);
        assert ([queue[0]] + rest)[1..] == rest;
      }
    }
  }

  predicate Enabled(s: State, step: Step) {
    match step
    case Enqueue(q) => true
    case StartDrain => s.queue != []
    case TryNext(d, fate) => d < |s.drains| && s.drains[d].todo != []
    case FinishDrain(d) => d < |s.drains| && s.drains[d].todo == []
  }

  function Do(s: State, step: Step): State
    requires Enabled(s, step)
  {
    match step
    case Enqueue(q) => s.(queue := InsertTicket(s.queue, Ticket(s.next, q)), next := s.next + 1)
    case StartDrain => s.(queue := [], drains := s.drains + [Drain(s.queue, [])])
    case TryNext(d, fate) =>
      var Drain(todo, remaining) := s.drains[d];
      var t := todo[0];
      (match fate
       case Granted(_) => s.(drains := s.drains[d := Drain(todo[1..], remaining)], granted := s.granted + multiset{t})
       case TimedOut => s.(drains := s.drains[d := Drain(todo[1..], remaining)], timedOut := s.timedOut + multiset{t})
       case Kept => s.(drains := s.drains[d := Drain(todo[1..], remaining + [t])]))
    case FinishDrain(d) =>
      s.(queue := s.queue + s.drains[d].remaining, drains := s.drains[..d] + s.drains[d + 1..])
  }

  const START: State := State([], [], multiset{}, multiset{}, 0)

  ghost predicate IsRun(run: seq<State>, steps: seq<Step>) {
    && |run| == |steps| + 1 && run[0] == START
    && forall i :: 0 <= i < |steps| ==> Enabled(run[i], steps[i]) && run[i + 1] == Do(run[i], steps[i])
  }

  // ---------- conservation ----------

  function HeldBy(d: Drain): multiset<Ticket> {
    multiset(d.todo) + multiset(d.remaining)
  }

  function HeldByAll(ds: seq<Drain>): multiset<Ticket> {
    if ds == [] then multiset{} else
    var n := |ds| - 1;
    HeldByAll(ds[..n]) + HeldBy(ds[n])
  }

  lemma {:induction false} HeldByAllSplit(ds: seq<Drain>, d: nat)
    requires d < |ds|
    ensures HeldByAll(ds) == HeldByAll(ds[..d] + ds[d + 1..]) + HeldBy(ds[d])
  {
    var n := |ds| - 1;
    hide HeldBy;
    if d == n {
      assert ds[..d] + ds[d + 1..] == ds[..n];
    } else {
      HeldByAllSplit(ds[..n], d);
      var rest := ds[..d] + ds[d + 1..];
      assert rest[..n - 1] == ds[..n][..d] + ds[..n][d + 1..] && rest[n - 1] == ds[n];
    }
  }

  /** Every place a queued request can be in. */
  function Everywhere(s: State): multiset<Ticket> {
    multiset(s.queue) + HeldByAll(s.drains) + s.granted + s.timedOut
  }

  /** Each arrival number below next is in exactly one place, once; others are nowhere. */
  ghost predicate Numbered(m: multiset<Ticket>, next: nat) {
    && (forall t <- m :: t.number < next && m[t] == 1)
    && (forall t, u :: t in m && u in m && t.number == u.number ==> t == u)
    && |m| == next
  }

  ghost predicate Conserved(s: State) {
    Numbered(Everywhere(s), s.next)
  }

  lemma NumberedMore(m: multiset<Ticket>, next: nat, q: Request)
    requires Numbered(m, next)
    ensures Numbered(m + multiset{Ticket(next, q)}, next + 1)
  {
    assert Ticket(next, q) !in m;
  }

  lemma DrainUpdate(ds: seq<Drain>, d: nat, drain: Drain)
    requires d < |ds|
    ensures HeldByAll(ds) == HeldByAll(ds[..d] + ds[d + 1..]) + HeldBy(ds[d])
    ensures HeldByAll(ds[d := drain]) == HeldByAll(ds[..d] + ds[d + 1..]) + HeldBy(drain)
  {
    HeldByAllSplit(ds, d);
    HeldByAllSplit(ds[d := drain], d);
    assert ds[d := drain][..d] + ds[d := drain][d + 1..] == ds[..d] + ds[d + 1..];
  }

  lemma TryMoves(s: State, d: nat, fate: Fate)
    requires d < |s.drains| && s.drains[d].todo != []
    ensures Everywhere(Do(s, TryNext(d, fate))) == Everywhere(s)
  {
    var Drain(todo, remaining) := s.drains[d];
    var drain := Drain(todo[1..], if fate.Kept? then remaining + [todo[0]] else remaining);
    var left := if fate.Kept? then multiset{} else multiset{todo[0]};
    TryHeld(s.drains[d], fate);
    DrainUpdate(s.drains, d, drain);
    var after := HeldByAll(s.drains[d := drain]);
    assert HeldByAll(s.drains) == after + left;
    TryEverywhere(s, d, fate, drain, left);
  }

  lemma TryEverywhere(s: State, d: nat, fate: Fate, drain: Drain, left: multiset<Ticket>)
    requires d < |s.drains| && s.drains[d].todo != []
    requires drain == Drain(s.drains[d].todo[1..],
                            if fate.Kept? then s.drains[d].remaining + [s.drains[d].todo[0]] else s.drains[d].remaining)
    requires left == if fate.Kept? then multiset{} else multiset{s.drains[d].todo[0]}
    requires HeldByAll(s.drains) == HeldByAll(s.drains[d := drain]) + left
    ensures Everywhere(Do(s, TryNext(d, fate))) == Everywhere(s)
  {
    hide HeldByAll, HeldBy;
  }

  lemma TryHeld(d: Drain, fate: Fate)
    requires d.todo != []
    ensures HeldBy(d) == HeldBy(Drain(d.todo[1..], if fate.Kept? then d.remaining + [d.todo[0]] else d.remaining))
                         + if fate.Kept? then multiset{} else multiset{d.todo[0]}
  {
    TakeFirst(d.todo);
  }

  lemma TakeFirst<T>(s: seq<T>)
    requires s != []
    ensures multiset(s) == multiset{s[0]} + multiset(s[1..])
  {
    assert s == [s[0]] + s[1..];
  }

  /** No step but an arrival changes what there is. */
  lemma StepMoves(s: State, step: Step)
    requires Enabled(s, step)
    ensures Everywhere(Do(s, step)) ==
            Everywhere(s) + if step.Enqueue? then multiset{Ticket(s.next, step.q)} else multiset{}
  {
    match step
    case Enqueue(q) =>
    case StartDrain =>
      assert (s.drains + [Drain(s.queue, [])])[..|s.drains|] == s.drains;
    case TryNext(d, fate) =>
      TryMoves(s, d, fate);
    case FinishDrain(d) =>
      HeldByAllSplit(s.drains, d);
  }

  lemma StepConserves(s: State, step: Step)
    requires Conserved(s) && Enabled(s, step)
    ensures Conserved(Do(s, step))
  {
    StepMoves(s, step);
    NextIs(s, step);
    hide Do, Everywhere, Numbered;
    if step.Enqueue? {
      NumberedMore(Everywhere(s), s.next, step.q);
    } else {
      assert Everywhere(Do(s, step)) == Everywhere(s);
    }
  }

  lemma NextIs(s: State, step: Step)
    requires Enabled(s, step)
    ensures Do(s, step).next == if step.Enqueue? then s.next + 1 else s.next
  {
  }

  /** With any number of drains and arrivals interleaved, every request ever queued is in exactly one
      of the queue, one drain's hands, the granted, the timed out: each of the arrival numbers so far
      occurs once in all of them together. */
  lemma {:induction false} EveryRequestIsInOnePlace(run: seq<State>, steps: seq<Step>, i: nat)
    requires IsRun(run, steps) && i < |run|
    ensures Conserved(run[i])
  {
    if i > 0 {
      hide Do, Conserved, Enabled;
      EveryRequestIsInOnePlace(run, steps, i - 1);
      StepConserves(run[i - 1], steps[i - 1]);
    }
  }

  // ---------- order ----------

  /** The order of the pending queue: priority from high to low, then arrival. */
  predicate Ahead(a: Ticket, b: Ticket) {
    a.q.priority > b.q.priority || (a.q.priority == b.q.priority && a.number < b.number)
  }

  ghost predicate InOrder(ts: seq<Ticket>) {
    forall i, j :: 0 <= i < j < |ts| ==> Ahead(ts[i], ts[j])
  }

  /** There is only one such arrangement: the stable sort of the requests in it. */
  lemma {:induction false} InOrderIsUnique(a: seq<Ticket>, b: seq<Ticket>)
    requires InOrder(a) && InOrder(b) && multiset(a) == multiset(b)
    ensures a == b
  {
    SameSize(a, b);
    if a == [] {
      return;
    }
    FirstIsFirst(a, b);
    TailInOrder(a);
    TailInOrder(b);
    hide InOrder, Ahead;
    TailsAgree(a, b);
    InOrderIsUnique(a[1..], b[1..]);
    assert a == [a[0]] + a[1..] && b == [b[0]] + b[1..];
  }

  lemma SameSize<T>(a: seq<T>, b: seq<T>)
    requires multiset(a) == multiset(b)
    ensures |a| == |b|
  {
    assert |multiset(b)| == |b| && |multiset(a)| == |a|;
  }

  lemma TailsAgree<T>(a: seq<T>, b: seq<T>)
    requires a != [] && b != [] && a[0] == b[0] && multiset(a) == multiset(b)
    ensures multiset(a[1..]) == multiset(b[1..])
  {
    TakeFirst(a);
    TakeFirst(b);
    assert multiset(a) - multiset{a[0]} == multiset(a[1..]);
    assert multiset(b) - multiset{a[0]} == multiset(b[1..]);
  }

  lemma TailInOrder(ts: seq<Ticket>)
    requires InOrder(ts) && ts != []
    ensures InOrder(ts[1..])
  {
  }

  lemma FirstIsFirst(a: seq<Ticket>, b: seq<Ticket>)
    requires InOrder(a) && InOrder(b) && multiset(a) == multiset(b) && a != [] && b != []
    ensures a[0] == b[0]
  {
    assert a[0] in multiset(b) && b[0] in multiset(a);
    var i, j :| 0 <= i < |b| && 0 <= j < |a| && b[i] == a[0] && a[j] == b[0];
  }

  lemma {:induction false} InsertKeepsOrder(queue: seq<Ticket>, t: Ticket)
    requires InOrder(queue) && forall u <- queue :: u.number < t.number
    ensures InOrder(InsertTicket(queue, t))
  {
    if queue != [] {
      if t.q.priority <= queue[0].q.priority {
        InsertKeepsOrder(queue[1..], t);
        var rest := InsertTicket(queue[1..], t);
        forall u <- rest
          ensures Ahead(queue[0], u)
        {
          assert u in multiset(rest);
          if u != t {
            assert u in multiset(queue[1..]);
            var k :| 0 <= k < |queue[1..]| && queue[1..][k] == u;
            assert queue[k + 1] == u;
          } else {
            assert queue[0] in queue;
          }
        }
      }
    }
  }

  /** What an uninterrupted drain leaves. */
  function Survivors(ts: seq<Ticket>, fates: seq<Fate>): (r: seq<Ticket>)
    requires |fates| == |ts|
    ensures forall t <- r :: t in ts
  {
    if ts == [] then [] else
    (if fates[0].Kept? then [ts[0]] else []) + Survivors(ts[1..], fates[1..])
  }

  lemma {:induction false} SurvivorsKeepOrder(ts: seq<Ticket>, fates: seq<Fate>)
    requires |fates| == |ts| && InOrder(ts)
    ensures InOrder(Survivors(ts, fates))
  {
    if ts != [] {
      SurvivorsKeepOrder(ts[1..], fates[1..]);
      var rest := Survivors(ts[1..], fates[1..]);
      forall u <- rest
        ensures Ahead(ts[0], u)
      {
        var k :| 0 <= k < |ts[1..]| && ts[1..][k] == u;
        assert ts[k + 1] == u;
      }
    }
  }

  datatype Atomic = Arrive(q: Request) | DrainAll(fates: seq<Fate>)

  /** Arrivals and drains that nothing interleaves with. */
  function RunAtomic(ops: seq<Atomic>): (r: (seq<Ticket>, nat)) {
    if ops == [] then ([], 0) else
    var n := |ops| - 1;
    var (queue, next) := RunAtomic(ops[..n]);
    match ops[n]
    case Arrive(q) => (InsertTicket(queue, Ticket(next, q)), next + 1)
    case DrainAll(fates) => (if |fates| == |queue| then Survivors(queue, fates) else queue, next)
  }

  /** When drains are atomic the queue is always the stable sort, by descending priority, of the
      requests waiting in it. */
  lemma {:induction false} AtomicDrainsKeepOrder(ops: seq<Atomic>)
    ensures var (queue, next) := RunAtomic(ops);
            InOrder(queue) && forall t <- queue :: t.number < next
  {
    if ops != [] {
      var n := |ops| - 1;
      AtomicDrainsKeepOrder(ops[..n]);
      var (queue, next) := RunAtomic(ops[..n]);
      match ops[n]
      case Arrive(q) =>
        var t := Ticket(next, q);
        InsertKeepsOrder(queue, t);
        forall u <- InsertTicket(queue, t)
          ensures u.number < next + 1
        {
          assert u in multiset(InsertTicket(queue, t));
          assert u == t || u in multiset(queue);
        }
      case DrainAll(fates) =>
        if |fates| == |queue| {
          SurvivorsKeepOrder(queue, fates);
        }
    }
  }

  // ---------- atomic drains are runs of the steps ----------

  /** run leads from s to t by these steps. */
  ghost predicate Leads(s: State, steps: seq<Step>, run: seq<State>, t: State) {
    && |run| == |steps| + 1 && run[0] == s && run[|steps|] == t
    && forall i :: 0 <= i < |steps| ==> Enabled(run[i], steps[i]) && run[i + 1] == Do(run[i], steps[i])
  }

  lemma LeadsOn(s: State, steps: seq<Step>, run: seq<State>, t: State, steps': seq<Step>, run': seq<State>, u: State)
    requires Leads(s, steps, run, t) && Leads(t, steps', run', u)
    ensures run' != [] && Leads(s, steps + steps', run + run'[1..], u)
  {
    hide Do, Enabled;
    var all, way := steps + steps', run + run'[1..];
    forall i | 0 <= i < |all|
      ensures Enabled(way[i], all[i]) && way[i + 1] == Do(way[i], all[i])
    {
      if i >= |steps| {
        assert way[i] == run'[i - |steps|] && way[i + 1] == run'[i - |steps| + 1];
      }
    }
  }

  lemma LeadsOne(s: State, step: Step)
    requires Enabled(s, step)
    ensures Leads(s, [step], [s, Do(s, step)], Do(s, step))
  {
  }

  lemma TryOne(s: State, d: nat, fate: Fate)
    requires d < |s.drains| && s.drains[d].todo != []
    ensures Enabled(s, TryNext(d, fate))
    ensures var Drain(todo, remaining) := s.drains[d];
            var t := Do(s, TryNext(d, fate));
            && t.queue == s.queue && t.next == s.next
            && t.drains == s.drains[d := Drain(todo[1..], remaining + if fate.Kept? then [todo[0]] else [])]
  {
    var remaining := s.drains[d].remaining;
    assert remaining + [] == remaining;
  }

  /** From s the steps try all that drain d has yet to try, and come to t. */
  ghost predicate TriesAll(s: State, d: nat, fates: seq<Fate>, steps: seq<Step>, run: seq<State>, t: State)
    requires d < |s.drains| && |fates| == |s.drains[d].todo|
  {
    && Leads(s, steps, run, t)
    && |steps| == |fates| && (forall k :: 0 <= k < |fates| ==> steps[k] == TryNext(d, fates[k]))
    && t.queue == s.queue && t.next == s.next
    && t.drains == s.drains[d := Drain([], s.drains[d].remaining + Survivors(s.drains[d].todo, fates))]
  }

  lemma TryThen(s: State, d: nat, fates: seq<Fate>, steps: seq<Step>, run: seq<State>, t: State)
    requires d < |s.drains| && |fates| == |s.drains[d].todo| > 0
    requires var s' := Do(s, TryNext(d, fates[0]));
             |s'.drains| == |s.drains| && s'.drains[d].todo == s.drains[d].todo[1..] &&
             TriesAll(s', d, fates[1..], steps, run, t)
    ensures run != []
    ensures TriesAll(s, d, fates, [TryNext(d, fates[0])] + steps, [s, Do(s, TryNext(d, fates[0]))] + run[1..], t)
  {
    var step := TryNext(d, fates[0]);
    var Drain(todo, remaining) := s.drains[d];
    var s', head := Do(s, step), if fates[0].Kept? then [todo[0]] else [];
    TryOne(s, d, fates[0]);
    LeadsOne(s, step);
    assert Survivors(todo, fates) == head + Survivors(todo[1..], fates[1..]);
    hide Do, Enabled, Leads, Survivors;
    LeadsOn(s, [step], [s, s'], s', steps, run, t);
    assert remaining + head + Survivors(todo[1..], fates[1..]) == remaining + (head + Survivors(todo[1..], fates[1..]));
  }

  lemma {:induction false} TryAll(s: State, d: nat, fates: seq<Fate>)
    returns (steps: seq<Step>, run: seq<State>, t: State)
    requires d < |s.drains| && |fates| == |s.drains[d].todo|
    ensures TriesAll(s, d, fates, steps, run, t)
    decreases |fates|
  {
    if fates == [] {
      assert s.drains[d].remaining + [] == s.drains[d].remaining;
      return [], [s], s;
    }
    TryOne(s, d, fates[0]);
    var s' := Do(s, TryNext(d, fates[0]));
    hide *;
    steps, run, t := TryAll(s', d, fates[1..]);
    TryThen(s, d, fates, steps, run, t);
    steps, run := [TryNext(d, fates[0])] + steps, [s, s'] + run[1..];
  }

  /** An uninterrupted drain, step by step, comes to Survivors. */
  lemma DrainAllIsSteps(s: State, fates: seq<Fate>) returns (steps: seq<Step>, run: seq<State>, t: State)
    requires s.queue != [] && |fates| == |s.queue|
    ensures Leads(s, steps, run, t)
    ensures |steps| == |fates| + 2 && steps[0] == StartDrain && steps[|fates| + 1] == FinishDrain(|s.drains|)
    ensures forall k :: 0 <= k < |fates| ==> steps[k + 1] == TryNext(|s.drains|, fates[k])
    ensures t.queue == Survivors(s.queue, fates) && t.drains == s.drains && t.next == s.next
  {
    var d := |s.drains|;
    var s1 := Do(s, StartDrain);
    LeadsOne(s, StartDrain);
    var steps2, run2, s2 := TryAll(s1, d, fates);
    LeadsOne(s2, FinishDrain(d));
    t := Do(s2, FinishDrain(d));
    assert [] + Survivors(s.queue, fates) == Survivors(s.queue, fates);
    assert s2.drains[..d] + s2.drains[d + 1..] == s.drains;
    LeadsOn(s, [StartDrain], [s, s1], s1, steps2, run2, s2);
    LeadsOn(s, [StartDrain] + steps2, [s, s1] + run2[1..], s2, [FinishDrain(d)], [s2, t], t);
    steps := [StartDrain] + steps2 + [FinishDrain(d)];
    run := [s, s1] + run2[1..] + [s2, t][1..];
  }

  /** So arrivals and atomic drains are runs of the steps, and what holds of RunAtomic holds of them. */
  lemma {:induction false} AtomicIsARun(ops: seq<Atomic>) returns (steps: seq<Step>, run: seq<State>, t: State)
    ensures Leads(START, steps, run, t) && IsRun(run, steps)
    ensures (t.queue, t.next) == RunAtomic(ops) && t.drains == []
  {
    if ops == [] {
      return [], [START], START;
    }
    var n := |ops| - 1;
    var s;
    steps, run, s := AtomicIsARun(ops[..n]);
    t := s;
    match ops[n]
    case Arrive(q) =>
      LeadsOne(s, Enqueue(q));
      t := Do(s, Enqueue(q));
      LeadsOn(START, steps, run, s, [Enqueue(q)], [s, t], t);
      steps, run := steps + [Enqueue(q)], run + [s, t][1..];
    case DrainAll(fates) =>
      if |fates| == |s.queue| && s.queue != [] {
        var steps', run';
        steps', run', t := DrainAllIsSteps(s, fates);
        LeadsOn(START, steps, run, s, steps', run', t);
        steps, run := steps + steps', run + run'[1..];
      }
  }

  lemma {:induction false} SurvivorsSplit(ts: seq<Ticket>, fates: seq<Fate>)
    requires |fates| == |ts| > 0
    ensures var n := |ts| - 1;
            Survivors(ts, fates) == Survivors(ts[..n], fates[..n]) + if fates[n].Kept? then [ts[n]] else []
  {
    var n := |ts| - 1;
    if n > 0 {
      SurvivorsSplit(ts[1..], fates[1..]);
      assert ts[1..][..n - 1] == ts[..n][1..] && fates[1..][..n - 1] == fates[..n][1..];
    }
  }

  lemma RequestsAppend(a: seq<Ticket>, b: seq<Ticket>)
    ensures Requests(a + b) == Requests(a) + Requests(b)
  {
    hide Requests;
    assert forall k :: 0 <= k < |a + b| ==> Requests(a + b)[k] == (Requests(a) + Requests(b))[k];
  }

  /** Forgetting the arrival numbers, what an atomic drain leaves is what ProcessPendingRequests puts back. */
  lemma {:induction false} SurvivorsAreKeptOnes(ts: seq<Ticket>, fates: seq<Fate>)
    requires |fates| == |ts|
    ensures Requests(Survivors(ts, fates)) == KeptOnes(Requests(ts), fates)
  {
    if ts != [] {
      var n := |ts| - 1;
      SurvivorsAreKeptOnes(ts[..n], fates[..n]);
      SurvivorsSplit(ts, fates);
      RequestsAppend(Survivors(ts[..n], fates[..n]), if fates[n].Kept? then [ts[n]] else []);
      assert Requests(ts)[..n] == Requests(ts[..n]);
    }
  }

  // ---------- interleaved drains ----------

  /** Nothing queued meanwhile ranks behind the first survivor: only the last of the queue needs a look. */
  predicate Fits(queue: seq<Ticket>, remaining: seq<Ticket>) {
    queue == [] || remaining == [] || Ahead(queue[|queue| - 1], remaining[0])
  }

  /** Putting survivors at the back keeps the order exactly if the last request in the queue goes ahead of
      the first survivor. */
  lemma FinishKeepsOrderIff(queue: seq<Ticket>, remaining: seq<Ticket>)
    requires InOrder(queue) && InOrder(remaining)
    ensures InOrder(queue + remaining) <==> Fits(queue, remaining)
  {
    var all := queue + remaining;
    if queue != [] && remaining != [] {
      var m := |queue| - 1;
      assert all[m] == queue[m] && all[m + 1] == remaining[0];
      if Fits(queue, remaining) {
        forall i, j | 0 <= i < j < |all|
          ensures Ahead(all[i], all[j])
        {
          assert i < m ==> Ahead(queue[i], queue[m]);
          assert j > m + 1 ==> Ahead(remaining[0], remaining[j - m - 1]);
        }
      }
    } else {
      assert all == queue || all == remaining;
    }
  }

  /** Queue and drains in order, and every number below next. */
  ghost predicate Orderly(s: State) {
    && InOrder(s.queue) && (forall t <- s.queue :: t.number < s.next)
    && forall d :: 0 <= d < |s.drains| ==>
         && InOrder(s.drains[d].remaining + s.drains[d].todo)
         && forall t <- s.drains[d].remaining + s.drains[d].todo :: t.number < s.next
  }

  lemma InOrderParts(a: seq<Ticket>, b: seq<Ticket>)
    requires InOrder(a + b)
    ensures InOrder(a) && InOrder(b)
  {
    assert forall i :: 0 <= i < |a| ==> (a + b)[i] == a[i];
    forall i, j | 0 <= i < j < |b|
      ensures Ahead(b[i], b[j])
    {
      assert (a + b)[|a| + i] == b[i] && (a + b)[|a| + j] == b[j];
    }
  }

  lemma DropMiddle(a: seq<Ticket>, b: seq<Ticket>)
    requires b != [] && InOrder(a + b)
    ensures InOrder(a + b[1..])
  {
    var m, all, less := |a|, a + b, a + b[1..];
    assert forall i :: 0 <= i < |less| ==> less[i] == all[if i < m then i else i + 1];
  }

  lemma EnqueueOrderly(s: State, q: Request)
    requires Orderly(s)
    ensures Orderly(Do(s, Enqueue(q)))
  {
    var t := Ticket(s.next, q);
    InsertKeepsOrder(s.queue, t);
    hide InOrder;
    forall u <- InsertTicket(s.queue, t)
      ensures u.number < s.next + 1
    {
      assert u in multiset(InsertTicket(s.queue, t));
      assert u == t || u in multiset(s.queue);
    }
  }

  lemma TryOrderly(s: State, d: nat, fate: Fate)
    requires Orderly(s) && Enabled(s, TryNext(d, fate))
    ensures Orderly(Do(s, TryNext(d, fate)))
  {
    var Drain(todo, remaining) := s.drains[d];
    DropMiddle(remaining, todo);
    assert remaining + [todo[0]] + todo[1..] == remaining + todo;
    hide InOrder;
    assert forall t <- remaining + todo[1..] :: t in remaining + todo;
    var s' := Do(s, TryNext(d, fate));
    assert forall e :: 0 <= e < |s.drains| && e != d ==> s'.drains[e] == s.drains[e];
  }

  lemma FinishOrderlyIff(s: State, d: nat)
    requires Orderly(s) && Enabled(s, FinishDrain(d))
    ensures var s' := Do(s, FinishDrain(d));
            if Fits(s.queue, s.drains[d].remaining) then Orderly(s') else !InOrder(s'.queue)
  {
    var remaining := s.drains[d].remaining;
    assert remaining + s.drains[d].todo == remaining;
    FinishKeepsOrderIff(s.queue, remaining);
    hide InOrder, Fits;
    var s' := Do(s, FinishDrain(d));
    assert forall t <- s.queue + remaining :: t in s.queue || t in remaining;
    assert forall e :: 0 <= e < |s'.drains| ==> s'.drains[e] == s.drains[if e < d then e else e + 1];
  }

  lemma StepOrderly(s: State, step: Step)
    requires Orderly(s) && Enabled(s, step)
    ensures if step.FinishDrain? && !Fits(s.queue, s.drains[step.d].remaining) then !InOrder(Do(s, step).queue)
            else Orderly(Do(s, step))
  {
    match step
    case Enqueue(q) => EnqueueOrderly(s, q);
    case TryNext(d, fate) => TryOrderly(s, d, fate);
    case FinishDrain(d) => FinishOrderlyIff(s, d);
    case StartDrain => assert [] + s.queue == s.queue;
  }

  /** The drain that this step finishes, if it finishes one, fits behind the queue. */
  ghost predicate FitsAt(s: State, step: Step) {
    step.FinishDrain? && step.d < |s.drains| ==> Fits(s.queue, s.drains[step.d].remaining)
  }

  /** With any number of drains and arrivals interleaved, the queue has been in order all along exactly if
      every drain, when it put its survivors back, found them to rank behind the last request queued. */
  lemma {:induction false} QueueStaysInOrderIff(run: seq<State>, steps: seq<Step>, i: nat)
    requires IsRun(run, steps) && i < |run|
    ensures (forall k :: 0 <= k <= i ==> InOrder(run[k].queue)) <==> forall k :: 0 <= k < i ==> FitsAt(run[k], steps[k])
    ensures (forall k :: 0 <= k < i ==> FitsAt(run[k], steps[k])) ==> Orderly(run[i])
  {
    if i > 0 {
      QueueStaysInOrderIff(run, steps, i - 1);
      if forall k :: 0 <= k < i - 1 ==> FitsAt(run[k], steps[k]) {
        StepOrderly(run[i - 1], steps[i - 1]);
        assert run[i - 1 + 1] == Do(run[i - 1], steps[i - 1]);
      }
      OrderlyInOrder(run[i]);
      hide Do, Enabled, InOrder, Orderly, FitsAt;
    }
  }

  lemma OrderlyInOrder(s: State)
    ensures Orderly(s) ==> InOrder(s.queue)
  {
  }

  // ---------- one drain at a time ----------

  /** What is queued arrived after everything a drain has in hand. */
  ghost predicate Younger(s: State) {
    && (forall t <- s.queue :: t.number < s.next)
    && forall d :: 0 <= d < |s.drains| ==>
         forall t <- s.drains[d].remaining + s.drains[d].todo ::
           t.number < s.next && forall u <- s.queue :: t.number < u.number
  }

  lemma StepYounger(s: State, step: Step)
    requires Younger(s) && Enabled(s, step) && |s.drains| <= 1 && |Do(s, step).drains| <= 1
    ensures Younger(Do(s, step))
  {
    match step
    case Enqueue(q) =>
      var t := Ticket(s.next, q);
      forall u <- InsertTicket(s.queue, t)
        ensures u == t || u in s.queue
      {
        assert u in multiset(InsertTicket(s.queue, t));
        assert u == t || u in multiset(s.queue);
      }
    case StartDrain => assert [] + s.queue == s.queue;
    case TryNext(d, fate) =>
      var Drain(todo, remaining) := s.drains[d];
      assert forall t <- remaining + todo[1..] :: t in remaining + todo;
      assert remaining + [todo[0]] + todo[1..] == remaining + todo;
    case FinishDrain(d) =>
      assert forall t <- s.queue + s.drains[d].remaining ::
               t in s.queue || t in s.drains[d].remaining + s.drains[d].todo;
  }

  lemma {:induction false} YoungerInRuns(run: seq<State>, steps: seq<Step>, i: nat)
    requires IsRun(run, steps) && i < |run| && forall k :: 0 <= k <= i ==> |run[k].drains| <= 1
    ensures Younger(run[i])
  {
    if i > 0 {
      YoungerInRuns(run, steps, i - 1);
      assert run[i - 1 + 1] == Do(run[i - 1], steps[i - 1]);
      StepYounger(run[i - 1], steps[i - 1]);
    }
  }

  /** With one drain at a time, a drain breaks the order exactly if, while it ran, a request arrived whose
      priority is not above that of its first survivor. */
  lemma ArrivalsBreakOrderIff(run: seq<State>, steps: seq<Step>, i: nat)
    requires IsRun(run, steps) && i < |steps| && steps[i].FinishDrain? && Orderly(run[i])
    requires forall k :: 0 <= k <= i ==> |run[k].drains| <= 1
    ensures var s, left := run[i], run[i].drains[0].remaining;
            InOrder(run[i + 1].queue) <==>
              left == [] || forall a <- s.queue :: a.q.priority > left[0].q.priority
  {
    YoungerInRuns(run, steps, i);
    var s, left := run[i], run[i].drains[0].remaining;
    InOrderParts(left, s.drains[0].todo);
    FinishKeepsOrderIff(s.queue, left);
    if s.queue != [] && left != [] {
      var last := s.queue[|s.queue| - 1];
      assert left[0] in left + s.drains[0].todo && last in s.queue;
      forall a <- s.queue
        ensures a.q.priority >= last.q.priority
      {
        var k :| 0 <= k < |s.queue| && s.queue[k] == a;
      }
    }
  }

  /** A concrete run in which it does not: a request of priority 1 is drained and kept while one of
      priority 0 arrives, and ends up behind it. */
  lemma InterleavedDrainBreaksOrder(high: Request, low: Request)
    requires high.priority == 1 && low.priority == 0
    ensures var s1 := Do(START, Enqueue(high));
            var s2 := Do(s1, StartDrain);
            var s3 := Do(s2, TryNext(0, Kept));
            var s4 := Do(s3, Enqueue(low));
            var s5 := Do(s4, FinishDrain(0));
            Requests(s5.queue) == [low, high] && !InOrder(s5.queue)
  {
    var s5 := [Ticket(1, low), Ticket(0, high)];
    assert !Ahead(s5[0], s5[1]);
  }
}
