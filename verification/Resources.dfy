/** The resources of the resource scheduler, on values: eligibility, placement, load. */
module Resources {
  import opened Arithmetic
  import opened Messages

  datatype Status = Available | Busy | Offline | Faulty

  datatype Resource = Resource(kind: string, capabilities: seq<string>, capacity: map<string, int>, status: Status,
                               load: real, used: map<string, int>, lastHeartbeat: int)

  datatype Request = Request(id: string, kind: string, needs: map<string, int>, priority: int, timeout: int,
                             capabilities: seq<string>, queuedAt: Option<int>)

  datatype Allocation = Allocation(requestId: string, resourceId: string, since: int, expires: int)

  type Pool = map<string, Resource>

  // ---------- eligibility ----------

  predicate HasCapabilities(r: Resource, required: seq<string>) {
    forall c <- required :: c in r.capabilities
  }

  function UsedOf(r: Resource, t: string): int {
    if t in r.used then r.used[t] else 0
  }

  predicate HasCapacity(r: Resource, needs: map<string, int>) {
    forall t <- needs :: t in r.capacity && r.capacity[t] - UsedOf(r, t) >= needs[t]
  }

  predicate Eligible(r: Resource, q: Request) {
    (r.status.Available? || r.status.Busy?) && r.kind == q.kind &&
    HasCapabilities(r, q.capabilities) && HasCapacity(r, q.needs)
  }

  /** The sentinel a resource's load has to stay under to be looked at. */
  const SENTINEL: real := 1.1

  /** The resource chosen for q: eligible, under the sentinel, and no eligible one is less loaded. */
  ghost predicate Picks(pool: Pool, q: Request, id: string) {
    && id in pool && Eligible(pool[id], q) && pool[id].load < SENTINEL
    && forall other <- pool :: Eligible(pool[other], q) ==> pool[id].load <= pool[other].load
  }

  /** Nothing can be chosen for q. */
  ghost predicate NoPick(pool: Pool, q: Request) {
    forall id <- pool :: Eligible(pool[id], q) ==> pool[id].load >= SENTINEL
  }

  // ---------- load ----------

  function Share(r: Resource, t: string): real
    requires t in r.capacity && r.capacity[t] > 0
  {
    UsedOf(r, t) as real / r.capacity[t] as real
  }

  function Measured(r: Resource): set<string> {
    set t | t in r.capacity && r.capacity[t] > 0
  }

  ghost function SumShares(r: Resource, ts: set<string>): real
    requires ts <= Measured(r)
    decreases |ts|
  {
    if ts == {} then 0.0 else
    var t :| t in ts;
    SumShares(r, ts - {t}) + Share(r, t)
  }

  /** Mean share in use over the resource types with a positive capacity. */
  ghost function LoadOf(r: Resource): real {
    var ts := Measured(r);
    if ts == {} then 0.0 else SumShares(r, ts) / |ts| as real
  }

  /** The sum does not depend on the order in which the types are visited. */
  lemma {:induction false} SumSharesAnyOrder(r: Resource, ts: set<string>, t: string)
    requires ts <= Measured(r) && t in ts
    ensures SumShares(r, ts) == SumShares(r, ts - {t}) + Share(r, t)
    decreases |ts|
  {
    var x :| x in ts && SumShares(r, ts) == SumShares(r, ts - {x}) + Share(r, x);
    if x != t {
      SumSharesAnyOrder(r, ts - {x}, t);
      SumSharesAnyOrder(r, ts - {t}, x);
      assert ts - {x} - {t} == ts - {t} - {x};
    }
  }

  // ---------- what the load says ----------

  function Times(x: real, n: int): real {
    x * n as real
  }

  lemma OneMore(x: real, n: int)
    ensures Times(x, 0) == 0.0 && Times(x, n) == Times(x, n - 1) + x
  {
  }

  lemma {:induction false} SumAtMost(r: Resource, ts: set<string>, x: real)
    requires ts <= Measured(r) && forall t <- ts :: Share(r, t) <= x
    ensures SumShares(r, ts) <= Times(x, |ts|)
    decreases |ts|
  {
    hide Times, Share;
    OneMore(x, |ts|);
    if ts != {} {
      var t :| t in ts;
      SumSharesAnyOrder(r, ts, t);
      SumAtMost(r, ts - {t}, x);
    }
  }

  lemma {:induction false} SumAtLeast(r: Resource, ts: set<string>, x: real)
    requires ts <= Measured(r) && forall t <- ts :: Share(r, t) >= x
    ensures SumShares(r, ts) >= Times(x, |ts|)
    decreases |ts|
  {
    hide Times, Share;
    OneMore(x, |ts|);
    if ts != {} {
      var t :| t in ts;
      SumSharesAnyOrder(r, ts, t);
      SumAtLeast(r, ts - {t}, x);
    }
  }

  lemma SumBelow(r: Resource, ts: set<string>, x: real, t: string)
    requires ts <= Measured(r) && (forall u <- ts :: Share(r, u) <= x) && t in ts && Share(r, t) < x
    ensures SumShares(r, ts) < Times(x, |ts|)
  {
    hide Times, Share;
    SumSharesAnyOrder(r, ts, t);
    SumAtMost(r, ts - {t}, x);
    OneMore(x, |ts|);
  }

  lemma Cancels(a: real, b: real, c: real)
    requires c > 0.0
    ensures a / c < b <==> a < b * c
    ensures a / c > b <==> a > b * c
  {
    var q := a / c;
    assert q * c == a;
    assert q < b ==> q * c < b * c;
    assert q > b ==> q * c > b * c;
  }

  /** There is something of the type to use. */
  predicate Usable(r: Resource, t: string) {
    t in r.capacity && r.capacity[t] > 0
  }

  lemma ShareMeans(r: Resource, t: string, x: real)
    requires Usable(r, t)
    ensures Share(r, t) < x <==> UsedOf(r, t) as real < x * r.capacity[t] as real
    ensures Share(r, t) > x <==> UsedOf(r, t) as real > x * r.capacity[t] as real
  {
    Cancels(UsedOf(r, t) as real, x, r.capacity[t] as real);
  }

  lemma MeasuredMeans(r: Resource)
    ensures forall t :: t in Measured(r) <==> Usable(r, t)
  {
  }

  /** The load is 0 if there is nothing to use. */
  lemma NothingToUse(r: Resource)
    requires forall t <- r.capacity :: !Usable(r, t)
    ensures LoadOf(r) == 0.0
  {
    assert Measured(r) == {};
  }

  lemma MeanCompares(r: Resource, some: string, x: real)
    requires Usable(r, some)
    ensures LoadOf(r) < x <==> SumShares(r, Measured(r)) < Times(x, |Measured(r)|)
    ensures LoadOf(r) > x <==> SumShares(r, Measured(r)) > Times(x, |Measured(r)|)
  {
    var ts := Measured(r);
    assert some in ts;
    hide SumShares, Measured;
    Cancels(SumShares(r, ts), x, |ts| as real);
  }

  /** Otherwise it is no more than the greatest share in use of any type. */
  lemma LoadAtMost(r: Resource, some: string, x: real)
    requires Usable(r, some)
    requires forall t | Usable(r, t) :: UsedOf(r, t) as real <= x * r.capacity[t] as real
    ensures LoadOf(r) <= x
  {
    MeasuredMeans(r);
    var ts := Measured(r);
    forall t <- ts {
      ShareMeans(r, t, x);
    }
    hide Share, Measured, UsedOf, SumShares, Times, LoadOf;
    SumAtMost(r, ts, x);
    MeanCompares(r, some, x);
  }

  /** And no less than the least one. */
  lemma LoadAtLeast(r: Resource, some: string, x: real)
    requires Usable(r, some)
    requires forall t | Usable(r, t) :: UsedOf(r, t) as real >= x * r.capacity[t] as real
    ensures LoadOf(r) >= x
  {
    MeasuredMeans(r);
    var ts := Measured(r);
    forall t <- ts {
      ShareMeans(r, t, x);
    }
    hide Share, Measured, UsedOf, SumShares, Times, LoadOf;
    SumAtLeast(r, ts, x);
    MeanCompares(r, some, x);
  }

  /** So where every type has the same share in use, that is the load. */
  lemma LoadIsTheCommonShare(r: Resource, some: string, x: real)
    requires Usable(r, some)
    requires forall t | Usable(r, t) :: UsedOf(r, t) as real == x * r.capacity[t] as real
    ensures LoadOf(r) == x
  {
    hide *;
    LoadAtMost(r, some, x);
    LoadAtLeast(r, some, x);
  }

  /** Nothing overcommitted, the load is 1 exactly if there is something to use and all of it is in use. */
  lemma FullIff(r: Resource)
    requires forall t <- r.capacity :: UsedOf(r, t) <= r.capacity[t]
    ensures LoadOf(r) == 1.0 <==> (exists t :: Usable(r, t)) && forall t | Usable(r, t) :: UsedOf(r, t) == r.capacity[t]
  {
    if some :| Usable(r, some) {
      if t :| Usable(r, t) && UsedOf(r, t) < r.capacity[t] {
        NotFull(r, t);
      } else {
        LoadIsTheCommonShare(r, some, 1.0);
      }
    } else {
      NothingToUse(r);
    }
    hide LoadOf;
  }

  lemma NotFull(r: Resource, t: string)
    requires forall t <- r.capacity :: UsedOf(r, t) <= r.capacity[t]
    requires Usable(r, t) && UsedOf(r, t) < r.capacity[t]
    ensures LoadOf(r) < 1.0
  {
    MeasuredMeans(r);
    var ts := Measured(r);
    forall t <- ts {
      ShareMeans(r, t, 1.0);
    }
    hide Share, Measured, UsedOf, SumShares, Times, LoadOf;
    SumBelow(r, ts, 1.0, t);
    MeanCompares(r, t, 1.0);
  }

  // ---------- what happens to one resource ----------

  function AddUse(used: map<string, int>, needs: map<string, int>): (r: map<string, int>)
    ensures r.Keys == used.Keys + needs.Keys
  {
    map t | t in used.Keys + needs.Keys ::
      (if t in used then used[t] else 0) + (if t in needs then needs[t] else 0)
  }

  /** updateResourceAfterAllocation */
  ghost function Allocate(r: Resource, needs: map<string, int>): Resource {
    var grown := r.(used := AddUse(r.used, needs));
    var load := LoadOf(grown);
    grown.(load := load, status := if load > 0.9 then Busy else r.status)
  }

  /** What releasing or expiring one allocation does: the load is halved whatever was allocated, and
      Used stays as it is. */
  function Halve(r: Resource): Resource {
    var load := r.load * 0.5;
    r.(load := load, status := if load < 0.01 then Available else r.status)
  }

  lemma {:induction false} SameShares(r: Resource, g: Resource, ts: set<string>)
    requires r.capacity == g.capacity && ts <= Measured(r) && forall t <- ts :: UsedOf(r, t) == UsedOf(g, t)
    ensures SumShares(r, ts) == SumShares(g, ts)
    decreases |ts|
  {
    if ts != {} {
      var t :| t in ts;
      SumSharesAnyOrder(r, ts, t);
      SumSharesAnyOrder(g, ts, t);
      SameShares(r, g, ts - {t});
    }
  }

  lemma MoreShares(r: Resource, g: Resource, t: string, n: int)
    requires r.capacity == g.capacity && Usable(r, t)
    requires forall u :: UsedOf(g, u) == UsedOf(r, u) + if u == t then n else 0
    ensures var ts := Measured(r);
            ts == Measured(g) && SumShares(g, ts) - SumShares(r, ts) == Share(g, t) - Share(r, t)
  {
    var ts := Measured(r);
    assert t in ts;
    hide SumShares, Share, UsedOf;
    SumSharesAnyOrder(r, ts, t);
    SumSharesAnyOrder(g, ts, t);
    SameShares(r, g, ts - {t});
  }

  lemma ShareOfMore(r: Resource, g: Resource, t: string, n: int)
    requires r.capacity == g.capacity && Usable(r, t) && UsedOf(g, t) == UsedOf(r, t) + n
    ensures (Share(g, t) - Share(r, t)) * r.capacity[t] as real == n as real
  {
    var u, c := UsedOf(r, t) as real, r.capacity[t] as real;
    assert ((u + n as real) / c - u / c) * c == n as real;
  }

  lemma LoadTimes(r: Resource, some: string)
    requires Usable(r, some)
    ensures LoadOf(r) * |Measured(r)| as real == SumShares(r, Measured(r))
  {
    assert some in Measured(r);
    hide SumShares;
  }

  lemma Scaled(a: real, b: real, k: real, c: real, n: real, d: real)
    requires a * k - b * k == d && d * c == n
    ensures (a - b) * k * c == n
  {
    assert (a - b) * k == d;
  }

  /** By n over the product of types and capacity. */
  predicate Raised(rise: real, types: int, capacity: int, n: int) {
    rise * types as real * capacity as real == n as real
  }

  lemma MoreOfOne(r: Resource, g: Resource, t: string, n: int)
    requires r.capacity == g.capacity && Usable(r, t)
    requires forall u :: UsedOf(g, u) == UsedOf(r, u) + if u == t then n else 0
    ensures Raised(LoadOf(g) - LoadOf(r), |Measured(r)|, r.capacity[t], n)
  {
    hide UsedOf, Share, LoadOf, Measured, SumShares;
    MoreShares(r, g, t, n);
    ShareOfMore(r, g, t, n);
    LoadTimes(r, t);
    LoadTimes(g, t);
    Scaled(LoadOf(g), LoadOf(r), |Measured(r)| as real, r.capacity[t] as real, n as real, Share(g, t) - Share(r, t));
  }

  lemma SameLoad(r: Resource, g: Resource)
    requires r.capacity == g.capacity && forall t | Usable(r, t) :: UsedOf(r, t) == UsedOf(g, t)
    ensures LoadOf(r) == LoadOf(g)
  {
    MeasuredMeans(r);
    MeasuredMeans(g);
    hide UsedOf, Measured, SumShares;
    assert Measured(r) == Measured(g);
    SameShares(r, g, Measured(r));
  }

  lemma AllocateOne(r: Resource, t: string, n: int)
    ensures var g := Allocate(r, map[t := n]);
            && g.capacity == r.capacity && g.load == LoadOf(g)
            && forall u :: UsedOf(g, u) == UsedOf(r, u) + if u == t then n else 0
  {
    var grown := r.(used := AddUse(r.used, map[t := n]));
    var g := Allocate(r, map[t := n]);
    assert forall u :: UsedOf(g, u) == UsedOf(grown, u);
    hide LoadOf;
    SameLoad(grown, g);
  }

  /** Granting n of one type raises the load by n over what there is of it and over the number of types with
      anything to use, whatever the load was reported as; of a type with nothing to use, by nothing. */
  lemma GrantRaisesLoad(r: Resource, t: string, n: int, types: set<string>)
    requires forall u :: u in types <==> Usable(r, u)
    ensures var g := Allocate(r, map[t := n]);
            && g.load == LoadOf(g)
            && (Usable(r, t) ==> Raised(LoadOf(g) - LoadOf(r), |types|, r.capacity[t], n))
            && (!Usable(r, t) ==> LoadOf(g) == LoadOf(r))
  {
    TypesAreMeasured(r, types);
    hide *;
    AllocateOne(r, t, n);
    if Usable(r, t) {
      MoreOfOne(r, Allocate(r, map[t := n]), t, n);
    } else {
      SameLoad(r, Allocate(r, map[t := n]));
    }
  }

  lemma TypesAreMeasured(r: Resource, types: set<string>)
    requires forall u :: u in types <==> Usable(r, u)
    ensures types == Measured(r)
  {
  }

  /** A grant that brings every type to the same share makes the resource busy if that is over nine tenths,
      and otherwise leaves it as available or busy as it was. */
  lemma BusyOverNineTenths(r: Resource, needs: map<string, int>, some: string, x: real)
    requires var g := Allocate(r, needs);
             && Usable(g, some)
             && forall t | Usable(g, t) :: UsedOf(g, t) as real == x * g.capacity[t] as real
    ensures Allocate(r, needs).load == x
    ensures Allocate(r, needs).status == if 10.0 * x > 9.0 then Busy else r.status
  {
    var grown := r.(used := AddUse(r.used, needs));
    var g := Allocate(r, needs);
    assert forall t :: UsedOf(grown, t) == UsedOf(g, t) && Usable(grown, t) == Usable(g, t);
    hide UsedOf, LoadOf;
    LoadIsTheCommonShare(grown, some, x);
  }

  /** The resource after k allocations on it have ended. */
  function HalvedOften(r: Resource, k: nat): Resource {
    if k == 0 then r else Halve(HalvedOften(r, k - 1))
  }

  /** Each halves the load, and it is available as soon as the load is below a hundredth; nothing else changes. */
  lemma {:induction false} LoadAfterReleases(r: Resource, k: nat)
    requires k > 0 && r.load >= 0.0
    ensures var h := HalvedOften(r, k);
            && h.load == r.load * Power(0.5, k)
            && h.status == (if 100.0 * h.load < 1.0 then Available else r.status)
            && h == r.(load := h.load, status := h.status)
            && 0.0 <= h.load
  {
    NextPower(0.5, k, r.load);
    if k > 1 {
      LoadAfterReleases(r, k - 1);
    } else {
      assert HalvedOften(r, 0) == r && Power(0.5, 0) == 1.0;
    }
    hide Power;
  }

  /** Within capacity: nothing is overcommitted and the load says so. */
  ghost predicate InRange(r: Resource) {
    && (forall t <- r.capacity :: UsedOf(r, t) <= r.capacity[t])
    && r.load <= 1.0
  }

  lemma AllocateKeepsRange(r: Resource, q: Request)
    requires InRange(r) && Eligible(r, q)
    ensures InRange(Allocate(r, q.needs))
  {
    var grown := r.(used := AddUse(r.used, q.needs));
    assert forall t <- r.capacity :: UsedOf(grown, t) == UsedOf(r, t) + if t in q.needs then q.needs[t] else 0;
    hide LoadOf, UsedOf;
    if some :| Usable(grown, some) {
      LoadAtMost(grown, some, 1.0);
    } else {
      NothingToUse(grown);
    }
  }

  /** Allocation only shrinks eligibility: what a resource can still take after an allocation it could
      take before. */
  lemma AllocateShrinks(r: Resource, needs: map<string, int>, q: Request)
    requires forall t <- needs :: needs[t] >= 0
    requires r.status.Available? || r.status.Busy?
    requires Eligible(Allocate(r, needs), q)
    ensures Eligible(r, q)
  {
    var r' := Allocate(r, needs);
    hide LoadOf;
    assert forall t :: UsedOf(r', t) >= UsedOf(r, t);
  }

  /** In range, the sentinel hides nothing: a choice is impossible exactly when no resource is
      eligible. */
  lemma SentinelHidesNothing(pool: Pool, q: Request)
    requires forall id <- pool :: InRange(pool[id])
    ensures NoPick(pool, q) <==> forall id <- pool :: !Eligible(pool[id], q)
  {
    assert forall id <- pool :: InRange(pool[id]);
  }

  /** And what can be chosen is what no eligible resource is less loaded than. */
  lemma LeastLoadedIsChosen(pool: Pool, q: Request, a: string, b: string)
    requires forall id <- pool :: InRange(pool[id])
    requires a in pool && b in pool && Eligible(pool[a], q) && Eligible(pool[b], q)
    requires forall id <- pool :: id != a && id != b ==> !Eligible(pool[id], q)
    ensures Picks(pool, q, a) <==> pool[a].load <= pool[b].load
    ensures Picks(pool, q, b) <==> pool[b].load <= pool[a].load
  {
    assert InRange(pool[a]) && InRange(pool[b]);
    hide Eligible;
  }
}
