/** The resource scheduler: least-loaded placement, release, and the drain of the pending queue. */
module ResourceSchedulers {
  import opened Messages
  import opened Resources

  // ---------- draining the pending queue, on values ----------

  datatype Fate = Granted(id: string) | TimedOut | Kept

  /** A request with no timeout never expires; one with a timeout must carry its queueing time. */
  predicate Stamped(q: Request) {
    q.timeout <= 0 || q.queuedAt.Some?
  }

  predicate Expired(q: Request, now: int)
    requires Stamped(q)
  {
    q.timeout > 0 && now - q.queuedAt.value > q.timeout
  }

  /** What a fate does to the pool. */
  ghost function Moved(pool: Pool, q: Request, fate: Fate): (p: Pool)
    ensures p.Keys == pool.Keys
  {
    if fate.Granted? && fate.id in pool then pool[fate.id := Allocate(pool[fate.id], q.needs)] else pool
  }

  /** The pool after the grants of a drain. */
  ghost function PoolAfter(pool: Pool, reqs: seq<Request>, fates: seq<Fate>): (p: Pool)
    requires |reqs| == |fates|
    ensures p.Keys == pool.Keys
    decreases |reqs|
  {
    if reqs == [] then pool
    else
      var n := |reqs| - 1;
      var before := PoolAfter(pool, reqs[..n], fates[..n]);
      Moved(before, reqs[n], fates[n])
  }

  /** What may become of a request: expired ones time out, others are granted a resource of least
      load if there is one, and kept if there is none. */
  ghost predicate Legal(pool: Pool, q: Request, now: int, fate: Fate)
    requires Stamped(q)
  {
    if Expired(q, now) then fate.TimedOut?
    else
      match fate
      case Granted(id) => Picks(pool, q, id)
      case Kept => NoPick(pool, q)
      case TimedOut => false
  }

  /** times[k] is the clock when request k is looked at. */
  ghost predicate Drains(pool: Pool, reqs: seq<Request>, times: seq<int>, fates: seq<Fate>) {
    && |reqs| == |times| == |fates|
    && (forall q <- reqs :: Stamped(q))
    && forall k :: 0 <= k < |reqs| ==> Stamped(reqs[k]) && LegalAt(pool, reqs, times, fates, k)
  }

  ghost predicate LegalAt(pool: Pool, reqs: seq<Request>, times: seq<int>, fates: seq<Fate>, k: nat)
    requires |reqs| == |times| == |fates| && k < |reqs| && Stamped(reqs[k])
  {
    Legal(PoolAfter(pool, reqs[..k], fates[..k]), reqs[k], times[k], fates[k])
  }

  /** In a drain a request times out exactly if it has a timeout and its turn comes later than that after it
      was queued. */
  lemma TimesOutIff(pool: Pool, reqs: seq<Request>, times: seq<int>, fates: seq<Fate>, k: nat)
    requires Drains(pool, reqs, times, fates) && k < |reqs|
    ensures fates[k].TimedOut? <==> && reqs[k].timeout > 0 && reqs[k].queuedAt.Some?
                                    && times[k] > reqs[k].queuedAt.value + reqs[k].timeout
  {
    assert LegalAt(pool, reqs, times, fates, k);
    hide Picks, NoPick, PoolAfter;
  }

  /** The requests that were kept, in their order. */
  function KeptOnes(reqs: seq<Request>, fates: seq<Fate>): (r: seq<Request>)
    requires |reqs| == |fates|
    decreases |reqs|
  {
    if reqs == [] then [] else
    var n := |reqs| - 1;
    KeptOnes(reqs[..n], fates[..n]) + (if fates[n].Kept? then [reqs[n]] else [])
  }

  ghost predicate PoolInRange(pool: Pool) {
    forall id <- pool :: InRange(pool[id])
  }

  ghost predicate NoneEligible(pool: Pool, q: Request) {
    forall id <- pool :: !Eligible(pool[id], q)
  }

  predicate NonNegative(q: Request) {
    forall t <- q.needs :: q.needs[t] >= 0
  }

  lemma GrantShrinks(pool: Pool, q: Request, id: string, other: Request)
    requires PoolInRange(pool) && NonNegative(q) && Picks(pool, q, id) && NoneEligible(pool, other)
    ensures NoneEligible(pool[id := Allocate(pool[id], q.needs)], other)
  {
    hide Allocate;
    if Eligible(Allocate(pool[id], q.needs), other) {
      AllocateShrinks(pool[id], q.needs, other);
    }
  }

  lemma GrantKeepsRange(pool: Pool, q: Request, id: string)
    requires PoolInRange(pool) && Picks(pool, q, id)
    ensures PoolInRange(pool[id := Allocate(pool[id], q.needs)])
  {
    hide Allocate;
    AllocateKeepsRange(pool[id], q);
  }

  /** After an uninterrupted drain no request left in the queue could be allocated: not at its turn,
      and not any more after the later grants. */
  lemma {:induction false} DrainLeavesNothingAllocatable(pool: Pool, reqs: seq<Request>, times: seq<int>,
                                                         fates: seq<Fate>)
    requires PoolInRange(pool) && Drains(pool, reqs, times, fates)
    requires forall q <- reqs :: NonNegative(q)
    ensures var final := PoolAfter(pool, reqs, fates);
            && PoolInRange(final)
            && forall q <- KeptOnes(reqs, fates) :: NoneEligible(final, q)
    decreases |reqs|
  {
    if reqs != [] {
      var n := |reqs| - 1;
      var before := PoolAfter(pool, reqs[..n], fates[..n]);
      DrainPrefix(pool, reqs, times, fates);
      DrainLeavesNothingAllocatable(pool, reqs[..n], times[..n], fates[..n]);
      assert LegalAt(pool, reqs, times, fates, n);
      hide PoolInRange, NoneEligible, Allocate, Picks, NoPick;
      match fates[n]
      case Granted(id) =>
        PickKnown(before, reqs[n], id);
        GrantKeepsRange(before, reqs[n], id);
        forall q <- KeptOnes(reqs[..n], fates[..n])
          ensures NoneEligible(PoolAfter(pool, reqs, fates), q)
        {
          GrantShrinks(before, reqs[n], id, q);
        }
      case Kept =>
        NoneLeft(before, reqs[n]);
      case TimedOut =>
    }
  }

  lemma PickKnown(pool: Pool, q: Request, id: string)
    requires Picks(pool, q, id)
    ensures id in pool
  {
  }

  lemma NoneLeft(pool: Pool, q: Request)
    requires PoolInRange(pool) && NoPick(pool, q)
    ensures NoneEligible(pool, q)
  {
    SentinelHidesNothing(pool, q);
  }

  lemma DrainPrefix(pool: Pool, reqs: seq<Request>, times: seq<int>, fates: seq<Fate>)
    requires Drains(pool, reqs, times, fates) && reqs != []
    ensures var n := |reqs| - 1; Drains(pool, reqs[..n], times[..n], fates[..n])
  {
    var n := |reqs| - 1;
    forall k | 0 <= k < n
      ensures Stamped(reqs[..n][k]) && LegalAt(pool, reqs[..n], times[..n], fates[..n], k)
    {
      assert LegalAt(pool, reqs, times, fates, k);
      assert reqs[..n][..k] == reqs[..k] && fates[..n][..k] == fates[..k];
    }
  }

  lemma DrainMore(pool: Pool, reqs: seq<Request>, times: seq<int>, fates: seq<Fate>, q: Request, now: int, fate: Fate)
    requires Drains(pool, reqs, times, fates) && Stamped(q)
    requires Legal(PoolAfter(pool, reqs, fates), q, now, fate)
    ensures Drains(pool, reqs + [q], times + [now], fates + [fate])
    ensures PoolAfter(pool, reqs + [q], fates + [fate]) == Moved(PoolAfter(pool, reqs, fates), q, fate)
    ensures KeptOnes(reqs + [q], fates + [fate]) == KeptOnes(reqs, fates) + if fate.Kept? then [q] else []
  {
    var n := |reqs|;
    assert (reqs + [q])[..n] == reqs && (fates + [fate])[..n] == fates;
    forall k | 0 <= k < n + 1
      ensures Stamped((reqs + [q])[k]) && LegalAt(pool, reqs + [q], times + [now], fates + [fate], k)
    {
      if k < n {
        assert LegalAt(pool, reqs, times, fates, k);
        assert (reqs + [q])[..k] == reqs[..k] && (fates + [fate])[..k] == fates[..k];
      }
    }
  }

  // ---------- the pool over whole runs ----------

  datatype Op =
    | Register(id: string, r: Resource, now: int)
    | UpdateStatus(id: string, status: Status, load: real, now: int)
    | Heartbeat(id: string, load: real, used: Option<map<string, int>>, now: int)
    | Grant(q: Request, id: string)
    | EndAllocation(id: string)     // a release or an expiry of an allocation on that resource
    | MissHeartbeat(id: string)

  ghost function ApplyOp(pool: Pool, op: Op): Pool {
    match op
    case Register(id, r, now) =>
      if id in pool then pool else pool[id := r.(status := Available, load := 0.0, lastHeartbeat := now)]
    case UpdateStatus(id, status, load, now) =>
      if id in pool then pool[id := pool[id].(status := status, load := load, lastHeartbeat := now)] else pool
    case Heartbeat(id, load, used, now) =>
      if id !in pool then pool
      else
        var r := pool[id].(load := load, lastHeartbeat := now);
        pool[id := if used.Some? then r.(used := used.value) else r]
    case Grant(q, id) => if Picks(pool, q, id) then pool[id := Allocate(pool[id], q.needs)] else pool
    case EndAllocation(id) => if id in pool then pool[id := Halve(pool[id])] else pool
    case MissHeartbeat(id) => if id in pool then pool[id := pool[id].(status := Offline)] else pool
  }

  /** Registered and reported values are in range: use within capacity, load at most 1. */
  ghost predicate InputInRange(pool: Pool, op: Op) {
    match op
    case Register(_, r, _) => forall t <- r.capacity :: UsedOf(r, t) <= r.capacity[t]
    case UpdateStatus(_, _, load, _) => load <= 1.0
    case Heartbeat(id, load, used, _) =>
      && load <= 1.0
      && (used.Some? && id in pool ==>
            forall t <- pool[id].capacity :: (if t in used.value then used.value[t] else 0) <= pool[id].capacity[t])
    case _ => true
  }

  ghost function RunFrom(pool: Pool, ops: seq<Op>): Pool {
    if ops == [] then pool else ApplyOp(RunFrom(pool, ops[..|ops| - 1]), ops[|ops| - 1])
  }

  /** From no resources. */
  ghost function RunOps(ops: seq<Op>): Pool {
    RunFrom(map[], ops)
  }

  lemma HalveKeepsRange(r: Resource)
    requires InRange(r)
    ensures InRange(Halve(r))
  {
    var h := Halve(r);
    assert forall t :: UsedOf(h, t) == UsedOf(r, t);
  }

  lemma ApplyOpKeepsRange(pool: Pool, op: Op)
    requires PoolInRange(pool) && InputInRange(pool, op)
    ensures PoolInRange(ApplyOp(pool, op))
  {
    match op
    case Grant(q, id) =>
      if Picks(pool, q, id) {
        GrantKeepsRange(pool, q, id);
      }
    case EndAllocation(id) =>
      if id in pool {
        HalveKeepsRange(pool[id]);
      }
    case Register(id, r, now) =>
      var r' := r.(status := Available, load := 0.0, lastHeartbeat := now);
      assert forall t :: UsedOf(r', t) == UsedOf(r, t);
    case UpdateStatus(id, status, load, now) =>
      if id in pool {
        var r' := pool[id].(status := status, load := load, lastHeartbeat := now);
        assert forall t :: UsedOf(r', t) == UsedOf(pool[id], t);
      }
    case Heartbeat(id, load, used, now) =>
      if id in pool && used.None? {
        var r' := pool[id].(load := load, lastHeartbeat := now);
        assert forall t :: UsedOf(r', t) == UsedOf(pool[id], t);
      }
    case MissHeartbeat(id) =>
      if id in pool {
        var r' := pool[id].(status := Offline);
        assert forall t :: UsedOf(r', t) == UsedOf(pool[id], t);
      }
  }

  /** In every run no resource is ever overcommitted in any type and no load exceeds 1; so the search
      for a resource fails exactly when no eligible one exists, whatever the request. */
  lemma {:induction false} EveryRunStaysInRange(ops: seq<Op>, q: Request)
    requires forall k :: 0 <= k < |ops| ==> InputInRange(RunOps(ops[..k]), ops[k])
    ensures PoolInRange(RunOps(ops))
    ensures NoPick(RunOps(ops), q) <==> NoneEligible(RunOps(ops), q)
  {
    RunsStayInRange(ops);
    SentinelHidesNothing(RunOps(ops), q);
  }

  lemma {:induction false} RunsStayInRange(ops: seq<Op>)
    requires forall k :: 0 <= k < |ops| ==> InputInRange(RunOps(ops[..k]), ops[k])
    ensures PoolInRange(RunOps(ops))
  {
    if ops != [] {
      hide InputInRange, ApplyOp, PoolInRange;
      var n := |ops| - 1;
      var front := ops[..n];
      forall k | 0 <= k < n
        ensures InputInRange(RunOps(front[..k]), front[k])
      {
        assert front[..k] == ops[..k] && front[k] == ops[k];
      }
      RunsStayInRange(front);
      assert InputInRange(RunOps(ops[..n]), ops[n]);
      ApplyOpKeepsRange(RunOps(front), ops[n]);
    } else {
      assert RunOps(ops) == map[];
    }
  }

  // ---------- drains as runs ----------

  /** The grants of a drain, in order. */
  function GrantsOf(reqs: seq<Request>, fates: seq<Fate>): seq<Op>
    requires |reqs| == |fates|
  {
    if reqs == [] then [] else
    var n := |reqs| - 1;
    GrantsOf(reqs[..n], fates[..n]) + if fates[n].Granted? then [Grant(reqs[n], fates[n].id)] else []
  }

  /** A drain does to the pool what its grants one by one do. */
  lemma {:induction false} DrainIsGrants(pool: Pool, reqs: seq<Request>, times: seq<int>, fates: seq<Fate>)
    requires Drains(pool, reqs, times, fates)
    ensures PoolAfter(pool, reqs, fates) == RunFrom(pool, GrantsOf(reqs, fates))
    decreases |reqs|
  {
    if reqs != [] {
      var n := |reqs| - 1;
      var ops := GrantsOf(reqs[..n], fates[..n]);
      DrainPrefix(pool, reqs, times, fates);
      DrainIsGrants(pool, reqs[..n], times[..n], fates[..n]);
      assert LegalAt(pool, reqs, times, fates, n);
      hide Picks, NoPick, Allocate;
      if fates[n].Granted? {
        PickKnown(PoolAfter(pool, reqs[..n], fates[..n]), reqs[n], fates[n].id);
        assert (ops + [Grant(reqs[n], fates[n].id)])[..|ops|] == ops;
      } else {
        assert ops + [] == ops;
      }
    }
  }

  // ---------- what was last reported ----------

  function At(pool: Pool, id: string): Option<Resource> {
    if id in pool then Some(pool[id]) else None
  }

  lemma OthersUntouched(pool: Pool, op: Op, id: string)
    requires op.id != id
    ensures At(ApplyOp(pool, op), id) == At(pool, id)
  {
    hide Allocate, Picks;
  }

  lemma {:induction false} UntouchedStays(pool: Pool, ops: seq<Op>, m: nat, n: nat, id: string)
    requires m <= n <= |ops| && forall k :: m <= k < n ==> ops[k].id != id
    ensures At(RunFrom(pool, ops[..n]), id) == At(RunFrom(pool, ops[..m]), id)
    decreases n
  {
    hide ApplyOp, At, RunFrom;
    if m < n {
      UntouchedStays(pool, ops, m, n - 1, id);
      RunNext(pool, ops, n);
      OthersUntouched(RunFrom(pool, ops[..n - 1]), ops[n - 1], id);
    }
  }

  /** What a report makes of what is registered under its id. */
  function Reported(r: Option<Resource>, op: Op): Option<Resource> {
    match (r, op)
    case (None, Register(_, x, now)) =>
      Some(Resource(x.kind, x.capabilities, x.capacity, Available, 0.0, x.used, now))
    case (Some(x), UpdateStatus(_, status, load, now)) =>
      Some(Resource(x.kind, x.capabilities, x.capacity, status, load, x.used, now))
    case (Some(x), Heartbeat(_, load, used, now)) =>
      Some(Resource(x.kind, x.capabilities, x.capacity, x.status, load,
                    if used.Some? then used.value else x.used, now))
    case (Some(x), MissHeartbeat(_)) =>
      Some(Resource(x.kind, x.capabilities, x.capacity, Offline, x.load, x.used, x.lastHeartbeat))
    case _ => r
  }

  lemma ReportGives(pool: Pool, op: Op)
    requires !op.Grant? && !op.EndAllocation?
    ensures At(ApplyOp(pool, op), op.id) == Reported(At(pool, op.id), op)
  {
  }

  /** A resource is what was last reported of it, for as long as nothing is granted on it, released from it or
      reported of it: whatever happens to others. */
  lemma LastReportHolds(pool: Pool, ops: seq<Op>, m: nat, n: nat)
    requires m < n <= |ops| && !ops[m].Grant? && !ops[m].EndAllocation?
    requires forall k :: m < k < n ==> ops[k].id != ops[m].id
    ensures At(RunFrom(pool, ops[..n]), ops[m].id) == Reported(At(RunFrom(pool, ops[..m]), ops[m].id), ops[m])
  {
    hide ApplyOp, RunFrom;
    UntouchedStays(pool, ops, m + 1, n, ops[m].id);
    RunNext(pool, ops, m + 1);
    ReportGives(RunFrom(pool, ops[..m]), ops[m]);
  }

  // ---------- what releases give back ----------

  function NeedOf(needs: map<string, int>, t: string): int {
    if t in needs then needs[t] else 0
  }

  /** What one operation grants of a type on a resource. */
  ghost function GrantOf(pool: Pool, op: Op, id: string, t: string): int {
    if op.Grant? && op.id == id && Picks(pool, op.q, id) then NeedOf(op.q.needs, t) else 0
  }

  /** What the operations have granted of a type on a resource, whether or not it was released since. */
  ghost function GrantedOn(pool: Pool, ops: seq<Op>, id: string, t: string): int {
    if ops == [] then 0 else
    var front, op := ops[..|ops| - 1], ops[|ops| - 1];
    GrantedOn(pool, front, id, t) + GrantOf(RunFrom(pool, front), op, id, t)
  }

  /** A heartbeat of the resource that reports its use. */
  predicate Reports(op: Op, id: string) {
    op.Heartbeat? && op.id == id && op.used.Some?
  }

  /** What does not change about a resource. */
  predicate SameMake(r: Resource, x: Resource) {
    r.kind == x.kind && r.capabilities == x.capabilities && r.capacity == x.capacity
  }

  lemma OpAddsGrant(pool: Pool, op: Op, id: string, t: string)
    requires id in pool && !Reports(op, id)
    ensures id in ApplyOp(pool, op)
    ensures UsedOf(ApplyOp(pool, op)[id], t) == UsedOf(pool[id], t) + GrantOf(pool, op, id, t)
    ensures SameMake(ApplyOp(pool, op)[id], pool[id])
  {
    hide LoadOf, Picks;
  }

  /** The exact account: until a resource reports its use itself, what it has in use of every type is
      what it started with plus everything ever granted on it, whatever was released or expired. */
  lemma {:induction false} UseIsWhatWasGranted(pool: Pool, ops: seq<Op>, id: string, t: string)
    requires id in pool && forall op <- ops :: !Reports(op, id)
    ensures id in RunFrom(pool, ops)
    ensures UsedOf(RunFrom(pool, ops)[id], t) == UsedOf(pool[id], t) + GrantedOn(pool, ops, id, t)
    ensures SameMake(RunFrom(pool, ops)[id], pool[id])
  {
    hide ApplyOp, GrantOf;
    if ops != [] {
      var front, op := ops[..|ops| - 1], ops[|ops| - 1];
      UseIsWhatWasGranted(pool, front, id, t);
      OpAddsGrant(RunFrom(pool, front), op, id, t);
    }
  }

  /** So a request fits a resource after any such run exactly if it fits beside everything ever granted
      there. */
  lemma FitsBesideAllGranted(pool: Pool, ops: seq<Op>, id: string, needs: map<string, int>)
    requires id in pool && forall op <- ops :: !Reports(op, id)
    ensures id in RunFrom(pool, ops)
    ensures HasCapacity(RunFrom(pool, ops)[id], needs) <==>
              forall t <- needs :: && t in pool[id].capacity
                                   && UsedOf(pool[id], t) + GrantedOn(pool, ops, id, t) + needs[t] <=
                                       pool[id].capacity[t]
  {
    UseIsWhatWasGranted(pool, ops, id, "");
    hide RunFrom, GrantedOn;
    forall t <- needs
      ensures UsedOf(RunFrom(pool, ops)[id], t) == UsedOf(pool[id], t) + GrantedOn(pool, ops, id, t)
    {
      UseIsWhatWasGranted(pool, ops, id, t);
    }
  }

  /** And it can be placed there exactly if it fits, the resource is neither offline nor faulty, and it was
      registered for that type with every capability asked for. */
  lemma EligibleIff(pool: Pool, ops: seq<Op>, id: string, q: Request)
    requires id in pool && forall op <- ops :: !Reports(op, id)
    ensures id in RunFrom(pool, ops)
    ensures Eligible(RunFrom(pool, ops)[id], q) <==>
              && HasCapacity(RunFrom(pool, ops)[id], q.needs)
              && RunFrom(pool, ops)[id].status !in {Offline, Faulty}
              && pool[id].kind == q.kind
              && forall c <- q.capabilities :: c in pool[id].capabilities
  {
    UseIsWhatWasGranted(pool, ops, id, "");
    hide RunFrom, HasCapacity;
  }

  /** Releasing what was just allocated restores the resource's use exactly if nothing was needed. */
  lemma ReleaseRestoresIff(r: Resource, needs: map<string, int>)
    ensures (forall t :: UsedOf(Halve(Allocate(r, needs)), t) == UsedOf(r, t)) <==> (forall t <- needs :: needs[t] == 0)
  {
    hide LoadOf;
    var r' := Halve(Allocate(r, needs));
    forall t
      ensures UsedOf(r', t) == UsedOf(r, t) + NeedOf(needs, t)
    {
    }
    if t :| t in needs && needs[t] != 0 {
      assert UsedOf(r', t) != UsedOf(r, t);
    }
  }

  /** A concrete run: the only allocation has been released, nothing is in use by anyone, and the same
      request that was granted before is refused; with the use given back it would be eligible. */
  lemma ReleasedButRefused() returns (ops: seq<Op>, q: Request)
    ensures |ops| == 3 && ops[0].Register? && ops[1] == Grant(q, ops[0].id) && ops[2] == EndAllocation(ops[0].id)
    ensures Picks(RunOps(ops[..1]), q, ops[0].id)
    ensures NoneEligible(RunOps(ops), q) && NoPick(RunOps(ops), q)
    ensures ops[0].id in RunOps(ops) && Eligible(RunOps(ops)[ops[0].id].(used := map[]), q)
  {
    hide LoadOf;
    var r := Resource("llm", [], map["gpu" := 1], Available, 0.0, map[], 0);
    q := Request("q", "llm", map["gpu" := 1], 0, 0, [], None);
    ops := [Register("r", r, 0), Grant(q, "r"), EndAllocation("r")];
    assert RunOps([]) == map[];
    assert ops[..1][..0] == [] && ops[..2][..1] == ops[..1] && ops[..3] == ops && ops[..3][..2] == ops[..2];
    var p1, p2 := RunOps(ops[..1]), RunOps(ops[..2]);
    assert p1 == map["r" := r];
    assert Picks(p1, q, "r");
    assert p2 == map["r" := Allocate(r, q.needs)];
    assert RunOps(ops) == map["r" := Halve(Allocate(r, q.needs))];
    assert UsedOf(RunOps(ops)["r"], "gpu") == 1;
    assert "gpu" in q.needs;
  }

  /** A concrete case: a request with a timeout comes when there is nothing to place it on.  It waits, and the
      next drain stops at it. */
  lemma WaitingRequestStops() returns (q: Request)
    ensures q.timeout > 0 && q.queuedAt.None?
    ensures NoPick(map[], q) && InsertByPriority([], q) == [q] && !Stamped(q)
  {
    q := Request("q", "llm", map[], 0, 1, [], None);
  }

  // ---------- a resource that is down ----------

  /** Nothing is placed on it. */
  predicate Down(r: Resource) {
    r.status.Offline? || r.status.Faulty?
  }

  /** The operation ends an allocation on the resource and leaves it nearly idle, or reports it up. */
  predicate Revives(pool: Pool, op: Op, id: string) {
    && id in pool
    && ((op.EndAllocation? && op.id == id && pool[id].load * 0.5 < 0.01)
        || (op.UpdateStatus? && op.id == id && (op.status.Available? || op.status.Busy?)))
  }

  lemma DownStepIff(pool: Pool, op: Op, id: string)
    requires id in pool && Down(pool[id])
    ensures id in ApplyOp(pool, op)
    ensures Down(ApplyOp(pool, op)[id]) <==> !Revives(pool, op, id)
  {
    hide Allocate, HasCapacity, HasCapabilities;
  }

  /** The resource is down after each of the first n operations. */
  ghost predicate DownThroughout(pool: Pool, ops: seq<Op>, n: nat, id: string)
    requires n <= |ops|
  {
    forall k :: 0 <= k <= n ==> id in RunFrom(pool, ops[..k]) && Down(RunFrom(pool, ops[..k])[id])
  }

  lemma RunNext(pool: Pool, ops: seq<Op>, n: nat)
    requires 0 < n <= |ops|
    ensures RunFrom(pool, ops[..n]) == ApplyOp(RunFrom(pool, ops[..n - 1]), ops[n - 1])
  {
    assert ops[..n][..n - 1] == ops[..n - 1];
  }

  /** A resource that is offline, for a missed heartbeat or otherwise, or faulty stays out of use exactly
      until it is reported up, or an allocation on it ends when its load is below 0.02: no heartbeat brings
      it back, and any release may. */
  lemma {:induction false} StaysDownIff(pool: Pool, ops: seq<Op>, n: nat, id: string)
    requires n <= |ops| && id in pool && Down(pool[id])
    ensures DownThroughout(pool, ops, n, id)
            <==> (forall k :: 0 <= k < n ==> !Revives(RunFrom(pool, ops[..k]), ops[k], id))
  {
    if n == 0 {
      assert ops[..0] == [];
    } else {
      StaysDownIff(pool, ops, n - 1, id);
      DownMore(pool, ops, n, id);
      hide *;
      RunNext(pool, ops, n);
      if DownThroughout(pool, ops, n - 1, id) {
        DownStepIff(RunFrom(pool, ops[..n - 1]), ops[n - 1], id);
      }
    }
  }

  lemma DownMore(pool: Pool, ops: seq<Op>, n: nat, id: string)
    requires 0 < n <= |ops|
    ensures DownThroughout(pool, ops, n, id)
            <==> DownThroughout(pool, ops, n - 1, id) && id in RunFrom(pool, ops[..n]) &&
                 Down(RunFrom(pool, ops[..n])[id])
    ensures DownThroughout(pool, ops, n - 1, id) ==>
              id in RunFrom(pool, ops[..n - 1]) && Down(RunFrom(pool, ops[..n - 1])[id])
  {
    hide RunFrom, Down;
  }

  lemma PicksLone(r: Resource, q: Request)
    requires r.load < SENTINEL && Eligible(r, q)
    ensures Picks(map["r" := r], q, "r")
  {
    hide Eligible;
  }

  const LONE: Resource := Resource("llm", [], map["gpu" := 2], Available, 0.0, map[], 0)
  const ONE_GPU: Request := Request("q", "llm", map["gpu" := 1], 0, 0, [], None)

  /** Reported nearly idle, then late, then released. */
  lemma LateThenReleased(r: Resource)
    ensures var reported := r.(load := 0.01, lastHeartbeat := 1);
            var late := reported.(status := Offline);
            && ApplyOp(map["r" := r], Op.Heartbeat("r", 0.01, None, 1)) == map["r" := reported]
            && ApplyOp(map["r" := reported], MissHeartbeat("r")) == map["r" := late]
            && ApplyOp(map["r" := late], EndAllocation("r")) == map["r" := late.(load := 0.005, status := Available)]
  {
  }

  lemma OneGpuFitsTwice()
    ensures Picks(map["r" := LONE], ONE_GPU, "r")
    ensures ApplyOp(map["r" := LONE], Grant(ONE_GPU, "r")) == map["r" := Allocate(LONE, ONE_GPU.needs)]
    ensures Picks(map["r" := Allocate(LONE, ONE_GPU.needs).(load := 0.005, lastHeartbeat := 1, status := Available)],
                  ONE_GPU, "r")
  {
    hide LoadOf;
    PicksLone(LONE, ONE_GPU);
    var r := Allocate(LONE, ONE_GPU.needs).(load := 0.005, lastHeartbeat := 1, status := Available);
    assert UsedOf(r, "gpu") == 1;
    PicksLone(r, ONE_GPU);
  }

  lemma RegisterLone()
    ensures RunFrom(map[], []) == map[] && ApplyOp(map[], Register("r", LONE, 0)) == map["r" := LONE]
  {
  }

  /** A concrete run: a resource that has missed its heartbeat is released, and the next request is placed on
      it although it has not been heard of since. */
  lemma ReleaseRevivesOffline() returns (ops: seq<Op>)
    ensures ops == [Register("r", LONE, 0), Grant(ONE_GPU, "r"), Op.Heartbeat("r", 0.01, None, 1),
                    MissHeartbeat("r"), EndAllocation("r")]
    ensures "r" in RunOps(ops[..4]) && Down(RunOps(ops[..4])["r"])
    ensures Picks(RunOps(ops), ONE_GPU, "r")
  {
    ops := [Register("r", LONE, 0), Grant(ONE_GPU, "r"), Op.Heartbeat("r", 0.01, None, 1),
            MissHeartbeat("r"), EndAllocation("r")];
    hide ApplyOp, Allocate, Picks, LONE, ONE_GPU, RunFrom;
    RegisterLone();
    OneGpuFitsTwice();
    LateThenReleased(Allocate(LONE, ONE_GPU.needs));
    assert ops[..0] == [] && ops[..5] == ops;
    RunNext(map[], ops, 1);
    RunNext(map[], ops, 2);
    RunNext(map[], ops, 3);
    RunNext(map[], ops, 4);
    RunNext(map[], ops, 5);
  }

  // ---------- the scheduler in place ----------

  class LlmResource {
    const id: string
    const kind: string
    const capabilities: seq<string>
    const capacity: map<string, int>
    var status: Status
    var load: real
    var used: map<string, int>
    var lastHeartbeat: int

    function State(): Resource
      reads this
    {
      Resource(kind, capabilities, capacity, status, load, used, lastHeartbeat)
    }

    constructor (id: string, kind: string, capabilities: seq<string>, capacity: map<string, int>,
                 used: map<string, int>)
      ensures this.id == id && State() == Resource(kind, capabilities, capacity, Available, 0.0, used, 0)
    {
      this.id, this.kind, this.capabilities, this.capacity := id, kind, capabilities, capacity;
      status, load, this.used, lastHeartbeat := Available, 0.0, used, 0;
    }
  }

  method CheckCapabilities(r: LlmResource, required: seq<string>) returns (ok: bool)
    ensures ok <==> HasCapabilities(r.State(), required)
  {
    var i := 0;
    while i < |required|
      invariant 0 <= i <= |required|
      invariant forall k :: 0 <= k < i ==> required[k] in r.capabilities
    {
      var found := false;
      var j := 0;
      while j < |r.capabilities|
        invariant 0 <= j <= |r.capabilities|
        invariant !found && required[i] !in r.capabilities[..j]
      {
        if r.capabilities[j] == required[i] {
          found := true;
          break;
        }
        j := j + 1;
      }
      if !found {
        assert required[i] in required;
        return false;
      }
      i := i + 1;
    }
    ok := true;
  }

  /** Walks the requirements in the map's arbitrary order. */
  method CheckCapacity(r: LlmResource, needs: map<string, int>) returns (ok: bool)
    ensures ok <==> HasCapacity(r.State(), needs)
  {
    var left := needs.Keys;
    while left != {}
      invariant left <= needs.Keys
      invariant forall t <- needs.Keys - left :: t in r.capacity && r.capacity[t] - UsedOf(r.State(), t) >= needs[t]
    {
      var t :| t in left;
      if t !in r.capacity {
        return false;
      }
      var used := if t in r.used then r.used[t] else 0;
      if r.capacity[t] - used < needs[t] {
        return false;
      }
      left := left - {t};
    }
    ok := true;
  }

  /** Averages the shares over the capacity map, visited in any order. */
  method CalculateLoad(r: LlmResource) returns (load: real)
    ensures load == LoadOf(r.State())
  {
    var left := r.capacity.Keys;
    var total := 0.0;
    var count := 0;
    ghost var seen: set<string> := {};
    while left != {}
      invariant left <= r.capacity.Keys
      invariant seen == set t | t in r.capacity && t !in left && r.capacity[t] > 0
      invariant total == SumShares(r.State(), seen) && count == |seen|
    {
      var t :| t in left;
      left := left - {t};
      if r.capacity[t] > 0 {
        var used := if t in r.used then r.used[t] else 0;
        total := total + used as real / r.capacity[t] as real;
        count := count + 1;
        seen := seen + {t};
        SumSharesAnyOrder(r.State(), seen, t);
        assert seen - {t} == set x | x in r.capacity && x !in left + {t} && r.capacity[x] > 0;
      }
    }
    assert seen == Measured(r.State());
    load := if count == 0 then 0.0 else total / count as real;
  }

  /** The needs but for those still left to add. */
  function Taken(needs: map<string, int>, left: set<string>): map<string, int> {
    map t | t in needs && t !in left :: needs[t]
  }

  lemma TakenMore(used: map<string, int>, needs: map<string, int>, left: set<string>, t: string)
    requires left <= needs.Keys && t in left
    ensures var u := AddUse(used, Taken(needs, left));
            AddUse(used, Taken(needs, left - {t})) == u[t := (if t in u then u[t] else 0) + needs[t]]
  {
  }

  lemma TakenAll(used: map<string, int>, needs: map<string, int>)
    ensures AddUse(used, Taken(needs, needs.Keys)) == used && Taken(needs, {}) == needs
  {
  }

  method UpdateAfterAllocation(r: LlmResource, needs: map<string, int>)
    modifies r
    ensures r.State() == Allocate(old(r.State()), needs)
  {
    var left := needs.Keys;
    TakenAll(r.used, needs);
    hide AddUse, Taken, LoadOf;
    while left != {}
      invariant left <= needs.Keys
      invariant r.State() == old(r.State()).(used := r.used)
      invariant r.used == AddUse(old(r.used), Taken(needs, left))
    {
      var t :| t in left;
      TakenMore(old(r.used), needs, left, t);
      r.used := r.used[t := (if t in r.used then r.used[t] else 0) + needs[t]];
      left := left - {t};
    }
    var load := CalculateLoad(r);
    r.load := load;
    if r.load > 0.9 {
      r.status := Busy;
    }
  }

  /** A request goes before the first one of lower priority, after all of equal or higher priority. */
  function InsertByPriority(queue: seq<Request>, q: Request): (r: seq<Request>)
    ensures |r| == |queue| + 1
  {
    if queue == [] then [q]
    else if q.priority > queue[0].priority then [q] + queue
    else [queue[0]] + InsertByPriority(queue[1..], q)
  }

  lemma {:induction false} InsertByPriorityAt(queue: seq<Request>, q: Request, i: nat)
    requires i <= |queue|
    requires forall k :: 0 <= k < i ==> q.priority <= queue[k].priority
    requires i < |queue| ==> q.priority > queue[i].priority
    ensures InsertByPriority(queue, q) == queue[..i] + [q] + queue[i..]
  {
    if i > 0 {
      InsertByPriorityAt(queue[1..], q, i - 1);
      assert queue[..i] == [queue[0]] + queue[1..][..i - 1];
    }
  }

  type Grants = map<string, Allocation>

  /** The pool after ending the allocations with these request ids, in this order. */
  ghost function EndAll(pool: Pool, grants: Grants, order: seq<string>): Pool
    requires forall id <- order :: id in grants
  {
    if order == [] then pool
    else
      var n := |order| - 1;
      ApplyOp(EndAll(pool, grants, order[..n]), EndAllocation(grants[order[n]].resourceId))
  }

  ghost function Listing(order: seq<string>): set<string> {
    set id | id in order
  }

  /** Of the allocations not left to look at, exactly the expired ones have been listed, once each. */
  ghost predicate Expiring(grants: Grants, now: int, left: set<string>, order: seq<string>) {
    && (forall id :: id in order <==> id in grants.Keys - left && now > grants[id].expires)
    && forall i, j :: 0 <= i < j < |order| ==> order[i] != order[j]
  }

  lemma ExpiringNext(grants: Grants, now: int, left: set<string>, order: seq<string>, id: string)
    requires Expiring(grants, now, left, order) && left <= grants.Keys && id in left
    ensures id in grants - Listing(order) && forall x <- order :: x in grants
    ensures if now > grants[id].expires
            then Expiring(grants, now, left - {id}, order + [id])
            else Expiring(grants, now, left - {id}, order)
    ensures grants - Listing(order + [id]) == (grants - Listing(order)) - {id}
  {
    forall x
      ensures x in order + [id] <==> x in order || x == id
    {
    }
  }

  lemma ExpiringAll(grants: Grants, now: int, order: seq<string>)
    requires Expiring(grants, now, {}, order)
    ensures forall id :: id in order <==> id in grants && now > grants[id].expires
    ensures forall i, j :: 0 <= i < j < |order| ==> order[i] != order[j]
    ensures grants - Listing(order) == grants - set id | id in order
    ensures forall id <- order :: id in grants
  {
  }

  lemma EndAllNext(pool: Pool, grants: Grants, order: seq<string>, id: string)
    requires id in grants && forall x <- order :: x in grants
    ensures EndAll(pool, grants, order + [id]) ==
            ApplyOp(EndAll(pool, grants, order), EndAllocation(grants[id].resourceId))
  {
    assert (order + [id])[..|order|] == order;
  }

  class ResourceScheduler {
    var resources: map<string, LlmResource>
    var allocations: Grants
    var pendingQueue: seq<Request>
    ghost var pool: Pool  // the resources, on values
    ghost var own: set<LlmResource>

    ghost predicate Recorded(id: string)
      requires id in resources && id in pool
      reads `resources, `pool, resources[id]
    {
      resources[id].id == id && resources[id].State() == pool[id]
    }

    ghost predicate Valid()
      reads `resources, `pool, `own, own
    {
      resources.Keys == pool.Keys &&
      forall id {:trigger resources[id]} | id in resources :: resources[id] in own && Recorded(id)
    }

    /** Changing one resource leaves the others recorded. */
    twostate lemma OthersRecorded(id: string)
      requires old(Valid()) && old(own) <= own && id in resources && id in pool
      requires resources == old(resources)[id := resources[id]] && pool == old(pool)[id := pool[id]]
      requires forall x | x in old(own) && x.id != id :: unchanged(x)
      requires resources[id] in own && Recorded(id)
      ensures Valid()
    {
      forall k | k in resources && k != id
        ensures resources[k] in own && Recorded(k)
      {
        assert old(Recorded(k)) && resources[k] == old(resources)[k] && pool[k] == old(pool)[k];
      }
    }

    constructor ()
      ensures Valid() && own == {} && pool == map[] && allocations == map[] && pendingQueue == []
    {
      resources, allocations, pendingQueue, pool, own := map[], map[], [], map[], {};
    }

    /** The draining of waiting requests that a registration starts in the background is
        ProcessPendingRequests. */
    method RegisterResource(resource: LlmResource, now: int) returns (ok: bool)
      requires Valid()
      modifies this, resource
      ensures Valid() && allocations == old(allocations) && pendingQueue == old(pendingQueue)
      ensures ok <==> resource.id !in old(pool)
      ensures pool == if ok then ApplyOp(old(pool), Register(resource.id, old(resource.State()), now)) else old(pool)
    {
      if resource.id in resources {
        return false;
      }
      resource.status, resource.load, resource.lastHeartbeat := Available, 0.0, now;
      resources, own, pool := resources[resource.id := resource], own + {resource},
                              pool[resource.id := resource.State()];
      OthersRecorded(resource.id);
      ok := true;
    }

    /** Overwrites the fields of one registered resource. */
    method Store(id: string, status: Status, load: real, used: map<string, int>, beat: int)
      requires Valid() && id in pool
      modifies this`pool, own
      ensures Valid()
      ensures pool == old(pool)[id :=
                      old(pool)[id].(status := status, load := load, used := used, lastHeartbeat := beat)]
    {
      var r := resources[id];
      r.status, r.load, r.used, r.lastHeartbeat := status, load, used, beat;
      pool := pool[id := r.State()];
      OthersRecorded(id);
    }

    method UpdateResourceStatus(id: string, status: Status, load: real, now: int) returns (ok: bool)
      requires Valid()
      modifies `pool, own
      ensures Valid()
      ensures ok <==> id in old(pool)
      ensures pool == ApplyOp(old(pool), UpdateStatus(id, status, load, now))
    {
      if id !in resources {
        return false;
      }
      Store(id, status, load, resources[id].used, now);
      ok := true;
    }

    /** A nil map of used resources leaves Used alone. */
    method Heartbeat(id: string, load: real, used: Option<map<string, int>>, now: int) returns (ok: bool)
      requires Valid()
      modifies `pool, own
      ensures Valid()
      ensures ok <==> id in old(pool)
      ensures pool == ApplyOp(old(pool), Op.Heartbeat(id, load, used, now))
    {
      if id !in resources {
        return false;
      }
      Store(id, resources[id].status, load, if used.Some? then used.value else resources[id].used, now);
      ok := true;
    }

    /** The search of tryAllocateResource, over the resources in any order. */
    method FindBest(q: Request) returns (best: Option<string>)
      requires Valid()
      ensures best.None? ==> NoPick(pool, q)
      ensures best.Some? ==> Picks(pool, q, best.value)
    {
      var left := resources.Keys;
      var lowest := SENTINEL;
      best := None;
      while left != {}
        invariant left <= resources.Keys
        invariant best.None? ==> lowest == SENTINEL
        invariant best.Some? ==> best.value in pool && Eligible(pool[best.value], q) &&
                                 pool[best.value].load == lowest < SENTINEL
        invariant forall id <- pool.Keys - left :: Eligible(pool[id], q) ==> lowest <= pool[id].load
      {
        var id :| id in left;
        left := left - {id};
        var r := resources[id];
        if r.status.Available? || r.status.Busy? {
          if r.kind == q.kind {
            var capable := CheckCapabilities(r, q.capabilities);
            if capable {
              var fits := CheckCapacity(r, q.needs);
              if fits && r.load < lowest {
                best, lowest := Some(id), r.load;
              }
            }
          }
        }
      }
    }

    method GrantOn(id: string, needs: map<string, int>)
      requires Valid() && id in pool
      modifies this`pool, own
      ensures Valid() && pool == old(pool)[id := Allocate(old(pool)[id], needs)]
    {
      hide LoadOf, AddUse;
      UpdateAfterAllocation(resources[id], needs);
      pool := pool[id := Allocate(pool[id], needs)];
      OthersRecorded(id);
    }

    method TryAllocateResource(q: Request, now: int) returns (r: Option<Allocation>)
      requires Valid()
      modifies `pool, `allocations, own
      ensures Valid()
      ensures r.None? ==> NoPick(old(pool), q) && pool == old(pool) && allocations == old(allocations)
      ensures r.Some? ==>
                && Picks(old(pool), q, r.value.resourceId)
                && r.value == Allocation(q.id, r.value.resourceId, now, now + q.timeout)
                && pool == ApplyOp(old(pool), Grant(q, r.value.resourceId))
                && allocations == old(allocations)[q.id := r.value]
    {
      var best := FindBest(q);
      if best.None? {
        return None;
      }
      var id := best.value;
      assert id in pool;
      assert ApplyOp(pool, Grant(q, id)) == pool[id := Allocate(pool[id], q.needs)];
      hide *;
      var allocation := Allocation(q.id, id, now, now + q.timeout);
      GrantOn(id, q.needs);
      allocations := allocations[q.id := allocation];
      r := Some(allocation);
    }

    /** A request that cannot be served at once waits in priority order. */
    method RequestResource(q: Request, now: int) returns (r: Option<Allocation>)
      requires Valid()
      modifies `pool, `allocations, `pendingQueue, own
      ensures Valid()
      ensures r.Some? ==>
                && Picks(old(pool), q, r.value.resourceId)
                && pool == ApplyOp(old(pool), Grant(q, r.value.resourceId))
                && allocations == old(allocations)[q.id := r.value] && pendingQueue == old(pendingQueue)
      ensures r.None? ==>
                && NoPick(old(pool), q) && pool == old(pool) && allocations == old(allocations)
                && pendingQueue == InsertByPriority(old(pendingQueue), q)
    {
      r := TryAllocateResource(q, now);
      if r.Some? {
        return;
      }
      var i := 0;
      while i < |pendingQueue| && q.priority <= pendingQueue[i].priority
        invariant 0 <= i <= |pendingQueue|
        invariant forall k :: 0 <= k < i ==> q.priority <= pendingQueue[k].priority
      {
        i := i + 1;
      }
      InsertByPriorityAt(pendingQueue, q, i);
      pendingQueue := pendingQueue[..i] + [q] + pendingQueue[i..];
    }

    /** What ending an allocation does to its resource, if that is still registered. */
    method EndOn(id: string)
      requires Valid()
      modifies this`pool, own
      ensures Valid() && pool == ApplyOp(old(pool), EndAllocation(id))
    {
      if id in resources {
        var r := resources[id];
        var load := r.load * 0.5;
        Store(id, if load < 0.01 then Available else r.status, load, r.used, r.lastHeartbeat);
      }
    }

    method ReleaseResource(requestId: string) returns (ok: bool)
      requires Valid()
      modifies this, own
      ensures Valid() && own == old(own) && pendingQueue == old(pendingQueue)
      ensures ok <==> requestId in old(allocations)
      ensures allocations == old(allocations) - {requestId}
      ensures pool == if ok then ApplyOp(old(pool), EndAllocation(old(allocations)[requestId].resourceId))
                      else old(pool)
    {
      if requestId !in allocations {
        return false;
      }
      EndOn(allocations[requestId].resourceId);
      allocations := allocations - {requestId};
      ok := true;
    }

    /** Expires the allocations whose time is up, in any order; the ghost result is the order. */
    method CheckAllocations(now: int) returns (ghost order: seq<string>)
      requires Valid()
      modifies `pool, `allocations, own
      ensures Valid()
      ensures forall id :: id in order <==> id in old(allocations) && now > old(allocations)[id].expires
      ensures forall i, j :: 0 <= i < j < |order| ==> order[i] != order[j]
      ensures allocations == old(allocations) - set id | id in order
      ensures pool == EndAll(old(pool), old(allocations), order)
    {
      order := [];
      var left := allocations.Keys;
      ghost var start, grants := pool, allocations;
      assert EndAll(start, grants, []) == start;
      assert Expiring(grants, now, left, order) && grants - Listing(order) == grants;
      hide *;
      while left != {}
        invariant Valid() && Expiring(grants, now, left, order) && left <= grants.Keys
        invariant allocations == grants - Listing(order)
        invariant pool == EndAll(start, grants, order)
      {
        var id :| id in left;
        ExpiringNext(grants, now, left, order, id);
        left := left - {id};
        if now > allocations[id].expires {
          EndOn(allocations[id].resourceId);
          allocations := allocations - {id};
          EndAllNext(start, grants, order, id);
          order := order + [id];
        }
      }
      ExpiringAll(grants, now, order);
    }

    /** Marks every resource offline whose last heartbeat is too long ago. */
    method CheckResourceStatus(now: int, heartbeatTimeout: int)
      requires Valid()
      modifies this`pool, own
      ensures Valid()
      ensures pool.Keys == old(pool).Keys
      ensures forall id <- pool :: pool[id] == if now - old(pool)[id].lastHeartbeat > heartbeatTimeout
                                               then old(pool)[id].(status := Offline) else old(pool)[id]
    {
      var left := resources.Keys;
      ghost var start := pool;
      while left != {}
        invariant Valid() && left <= resources.Keys && pool.Keys == start.Keys
        invariant forall id <- left :: pool[id] == start[id]
        invariant forall id <- pool.Keys - left ::
                    pool[id] == if now - start[id].lastHeartbeat > heartbeatTimeout
                                then start[id].(status := Offline) else start[id]
      {
        var id :| id in left;
        left := left - {id};
        var r := resources[id];
        if now - r.lastHeartbeat > heartbeatTimeout {
          Store(id, Offline, r.load, r.used, r.lastHeartbeat);
        }
      }
    }

    /** One round of the drain's loop: skip an expired request, otherwise try it. */
    method Attempt(q: Request, now: int) returns (kept: bool, ghost fate: Fate)
      requires Valid() && Stamped(q)
      modifies `pool, `allocations, own
      ensures Valid()
      ensures Legal(old(pool), q, now, fate) && pool == Moved(old(pool), q, fate)
      ensures kept <==> fate.Kept?
    {
      if q.timeout > 0 && now - q.queuedAt.value > q.timeout {
        return false, TimedOut;
      }
      hide Picks, NoPick, Allocate;
      var r := TryAllocateResource(q, now);
      kept, fate := r.None?, if r.None? then Kept else Granted(r.value.resourceId);
    }

    /** The drain's loop.  A request with a timeout and no queueing time stops the program when its turn
        comes. */
    method TryEach(requests: seq<Request>, times: seq<int>)
      returns (ok: bool, remaining: seq<Request>, ghost fates: seq<Fate>)
      requires Valid() && |times| == |requests|
      modifies `pool, `allocations, own
      ensures Valid() && |fates| <= |requests|
      ensures Drains(old(pool), requests[..|fates|], times[..|fates|], fates)
      ensures pool == PoolAfter(old(pool), requests[..|fates|], fates)
      ensures remaining == KeptOnes(requests[..|fates|], fates)
      ensures ok <==> forall q <- requests :: Stamped(q)
      ensures if ok then |fates| == |requests| else |fates| < |requests| && !Stamped(requests[|fates|])
    {
      fates, remaining, ok := [], [], true;
      assert Drains(pool, requests[..0], times[..0], fates);
      assert KeptOnes(requests[..0], fates) == [] && PoolAfter(pool, requests[..0], fates) == pool;
      hide *;
      for i := 0 to |requests|
        invariant Valid() && ok
        invariant |fates| == i && Drains(old(pool), requests[..i], times[..i], fates)
        invariant pool == PoolAfter(old(pool), requests[..i], fates)
        invariant remaining == KeptOnes(requests[..i], fates)
        invariant forall q <- requests[..i] :: Stamped(q)
      {
        var q := requests[i];
        if !Stamped(q) {
          assert q in requests;
          ok := false;
          return;
        }
        assert requests[..i + 1] == requests[..i] + [q] && times[..i + 1] == times[..i] + [times[i]];
        var kept;
        ghost var fate;
        kept, fate := Attempt(q, times[i]);
        if kept {
          remaining := remaining + [q];
        }
        DrainMore(old(pool), requests[..i], times[..i], fates, q, times[i], fate);
        fates := fates + [fate];
      }
      assert requests[..|requests|] == requests && times[..|requests|] == times;
    }

    /** Takes the whole queue, tries every request once, and puts back what could not be served.  The
        ghost result says what became of each.  When the program stops on the way, ok is false, and the
        requests not yet served are gone. */
    method ProcessPendingRequests(times: seq<int>) returns (ok: bool, ghost fates: seq<Fate>)
      requires Valid() && |times| == |pendingQueue|
      modifies `pool, `allocations, `pendingQueue, own
      ensures Valid() && |fates| <= |old(pendingQueue)|
      ensures Drains(old(pool), old(pendingQueue)[..|fates|], times[..|fates|], fates)
      ensures pool == PoolAfter(old(pool), old(pendingQueue)[..|fates|], fates)
      ensures ok <==> forall q <- old(pendingQueue) :: Stamped(q)
      ensures ok ==> |fates| == |old(pendingQueue)| && pendingQueue == KeptOnes(old(pendingQueue), fates)
      ensures !ok ==> |fates| < |old(pendingQueue)| && !Stamped(old(pendingQueue)[|fates|]) && pendingQueue == []
    {
      fates, ok := [], true;
      if pendingQueue == [] {
        return;
      }
      hide *;
      var requests := pendingQueue;
      pendingQueue := [];
      var remaining;
      ok, remaining, fates := TryEach(requests, times);
      if ok {
        assert requests[..|requests|] == requests;
        pendingQueue := pendingQueue + remaining;
      }
    }
  }
}
