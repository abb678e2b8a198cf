/** The load balancer as a state machine: every locked section is one step, so runs of steps are the
    interleavings of lookups, selections, saves, releases, health checks and endpoint changes. */
module BalancerProtocol {
  import opened Arithmetic
  import opened Messages
  import opened Selection

  datatype Status = Unset | Healthy | Degraded | Unhealthy | Other(name: string)

  predicate Usable(s: Status) {
    s == Healthy || s == Degraded
  }

  datatype EndpointData = EndpointData(id: string, kind: string, weight: int, maxConnections: int, status: Status,
                                       connections: int, responseTime: int, errorRate: real)

  datatype Session = Session(endpointId: string, createdAt: int, lastUsed: int)

  datatype State = State(groups: Groups<EndpointData>, sessions: map<string, Session>,
                         index: map<string, nat>)

  const EMPTY: State := State(map[], map[], map[])

  // ---------- where an endpoint is ----------

  /** Endpoints by type, whether records or objects. */
  type Groups<T> = map<string, seq<T>>

  datatype Place = Place(kind: string, at: nat)

  predicate In<T>(g: Groups<T>, p: Place) {
    p.kind in g && p.at < |g[p.kind]|
  }

  function Get<T>(g: Groups<T>, p: Place): T
    requires In(g, p)
  {
    g[p.kind][p.at]
  }

  function Put<T>(g: Groups<T>, p: Place, e: T): Groups<T>
    requires In(g, p)
  {
    g[p.kind := g[p.kind][p.at := e]]
  }

  ghost predicate Holds(g: Groups<EndpointData>, id: string, p: Place) {
    In(g, p) && Get(g, p).id == id
  }

  ghost predicate Present(g: Groups<EndpointData>, id: string) {
    exists p :: Holds(g, id, p)
  }

  ghost function Locate(g: Groups<EndpointData>, id: string): (r: Option<Place>)
    ensures r.None? <==> !Present(g, id)
    ensures r.Some? ==> Holds(g, id, r.value)
  {
    if Present(g, id) then
      var p :| Holds(g, id, p);
      Some(p)
    else None
  }

  /** The groups seen as a table by id. */
  ghost function Of(g: Groups<EndpointData>, id: string): Option<EndpointData> {
    match Locate(g, id)
    case None => None
    case Some(p) => Some(Get(g, p))
  }

  /** No group is empty, each is keyed by its endpoints' own type, and no id occurs twice. */
  ghost predicate GroupsOk(g: Groups<EndpointData>) {
    && (forall k <- g :: g[k] != [])
    && (forall p | In(g, p) :: Get(g, p).kind == p.kind)
    && (forall p, q | In(g, p) && In(g, q) && Get(g, p).id == Get(g, q).id :: p == q)
  }

  lemma SameSizes<T, U>(g: Groups<T>, h: Groups<U>)
    requires g.Keys == h.Keys && forall p :: In(g, p) <==> In(h, p)
    ensures forall k <- g :: |g[k]| == |h[k]|
  {
    forall k <- g
      ensures |g[k]| == |h[k]|
    {
      assert In(g, Place(k, |g[k]|)) <==> In(h, Place(k, |g[k]|));
      assert In(g, Place(k, |h[k]|)) <==> In(h, Place(k, |h[k]|));
    }
  }

  lemma SameGroups<T>(g: Groups<T>, h: Groups<T>)
    requires g.Keys == h.Keys && forall p :: In(g, p) <==> In(h, p)
    requires forall p | In(g, p) :: Get(g, p) == Get(h, p)
    ensures g == h
  {
    forall k <- g
      ensures g[k] == h[k]
    {
      SameSizes(g, h);
      forall i | 0 <= i < |g[k]|
        ensures g[k][i] == h[k][i]
      {
        assert In(g, Place(k, i)) && Get(g, Place(k, i)) == Get(h, Place(k, i));
      }
    }
  }

  // ---------- the locked sections ----------

  function Members<T>(g: Groups<T>, kind: string): seq<T> {
    if kind in g then g[kind] else []
  }

  function Welcome(e: EndpointData): EndpointData {
    if e.status == Unset then e.(status := Healthy) else e
  }

  function Append<T>(g: Groups<T>, kind: string, e: T): Groups<T> {
    g[kind := Members(g, kind) + [e]]
  }

  ghost function Add(s: State, e: EndpointData): State {
    if Present(s.groups, e.id) then s
    else s.(groups := Append(s.groups, e.kind, Welcome(e)))
  }

  function Drop<T>(g: Groups<T>, p: Place): Groups<T>
    requires In(g, p)
  {
    var rest := g[p.kind][..p.at] + g[p.kind][p.at + 1..];
    if rest == [] then g - {p.kind} else g[p.kind := rest]
  }

  ghost function Remove(s: State, id: string): State {
    match Locate(s.groups, id)
    case None => s
    case Some(p) =>
      s.(groups := Drop(s.groups, p),
         sessions := map sid | sid in s.sessions && s.sessions[sid].endpointId != id :: s.sessions[sid])
  }

  ghost function SetStatus(s: State, id: string, status: Status): State {
    match Locate(s.groups, id)
    case None => s
    case Some(p) => s.(groups := Put(s.groups, p, Get(s.groups, p).(status := status)))
  }

  /** Whether a session can be honoured: alive, and its endpoint is there and usable. */
  ghost predicate Honours(s: State, sid: string, now: int, timeout: int) {
    && sid in s.sessions
    && !(timeout > 0 && now - s.sessions[sid].lastUsed > timeout)
    && Locate(s.groups, s.sessions[sid].endpointId).Some?
    && Usable(Get(s.groups, Locate(s.groups, s.sessions[sid].endpointId).value).status)
  }

  ghost function Lookup(s: State, sid: string, now: int, timeout: int): (r: (State, Option<string>)) {
    if Honours(s, sid, now, timeout) then
      (s.(sessions := s.sessions[sid := s.sessions[sid].(lastUsed := now)]), Some(s.sessions[sid].endpointId))
    else (s.(sessions := s.sessions - {sid}), None)
  }

  function Save(s: State, sid: string, eid: string, now: int): State {
    s.(sessions := s.sessions[sid := if sid in s.sessions
                                     then s.sessions[sid].(endpointId := eid, lastUsed := now)
                                     else Session(eid, now, now)])
  }

  /** Go's integer division by ten. */
  function Tenth(x: int): int {
    if x >= 0 then x / 10 else -((-x) / 10)
  }

  function Released(e: EndpointData, responseTime: int, isError: bool): EndpointData {
    e.(connections := if e.connections > 0 then e.connections - 1 else e.connections,
       responseTime := if responseTime <= 0 then e.responseTime
                       else if e.responseTime == 0 then responseTime
                       else Tenth(e.responseTime * 9 + responseTime),
       errorRate := if isError then (e.errorRate * 9.0 + 1.0) / 10.0 else e.errorRate * 0.9)
  }

  ghost function Release(s: State, id: string, responseTime: int, isError: bool): State {
    match Locate(s.groups, id)
    case None => s
    case Some(p) => s.(groups := Put(s.groups, p, Released(Get(s.groups, p), responseTime, isError)))
  }

  /** The simulated health check always succeeds: it lifts an unhealthy endpoint to degraded. */
  ghost function Check(s: State, id: string): State {
    match Locate(s.groups, id)
    case None => s
    case Some(p) =>
      if Get(s.groups, p).status == Unhealthy then SetStatus(s, id, Degraded) else s
  }

  function Cleanup(s: State, now: int, timeout: int): State {
    s.(sessions := map sid | sid in s.sessions && !(now - s.sessions[sid].lastUsed > timeout) :: s.sessions[sid])
  }

  // ---------- selection ----------

  datatype Strategy = RoundRobin | LeastConnections | WeightedRandom | AdaptiveLoad | OtherStrategy

  /** Round robin is also what an unknown strategy falls back on. */
  predicate Rotates(strategy: Strategy) {
    strategy == RoundRobin || strategy == OtherStrategy
  }

  /** Positions of the usable endpoints of a group, in order. */
  function UsableAt(es: seq<EndpointData>): (r: seq<nat>)
    ensures forall j :: 0 <= j < |r| ==> r[j] < |es|
  {
    if es == [] then [] else
    var n := |es| - 1;
    UsableAt(es[..n]) + (if Usable(es[n].status) then [n] else [])
  }

  /** They are exactly the usable ones, in increasing order. */
  lemma {:induction false} UsableAtMeans(es: seq<EndpointData>)
    ensures var r := UsableAt(es);
            && (forall i, j :: 0 <= i < j < |r| ==> r[i] < r[j])
            && (forall p: nat :: p in r <==> p < |es| && Usable(es[p].status))
  {
    if es != [] {
      UsableAtMeans(es[..|es| - 1]);
    }
  }

  function Connections(es: seq<EndpointData>, ps: seq<nat>): (r: seq<int>)
    requires forall j :: 0 <= j < |ps| ==> ps[j] < |es|
    ensures |r| == |ps|
    ensures forall j :: 0 <= j < |ps| ==> r[j] == es[ps[j]].connections
  {
    if ps == [] then [] else Connections(es, ps[..|ps| - 1]) + [es[ps[|ps| - 1]].connections]
  }

  function Weights(es: seq<EndpointData>, ps: seq<nat>): (r: seq<int>)
    requires forall j :: 0 <= j < |ps| ==> ps[j] < |es|
    ensures |r| == |ps|
    ensures forall j :: 0 <= j < |ps| ==> r[j] == es[ps[j]].weight
  {
    if ps == [] then [] else Weights(es, ps[..|ps| - 1]) + [es[ps[|ps| - 1]].weight]
  }

  /** Lower is better: 40% load, 40% response time in seconds (at most 10), 20% error rate. */
  function Score(e: EndpointData): real {
    var load := if e.maxConnections <= 0 then e.connections as real / 100.0
                else e.connections as real / e.maxConnections as real;
    var seconds := e.responseTime as real / SECOND as real;
    var time := if seconds > 10.0 then 10.0 else seconds;
    load * 0.4 + time * 0.4 + e.errorRate * 10.0 * 0.2
  }

  ghost predicate Best(es: seq<EndpointData>, ps: seq<nat>, j: nat)
    requires forall j :: 0 <= j < |ps| ==> ps[j] < |es|
  {
    j < |ps| && forall i :: 0 <= i < |ps| ==> Score(es[ps[j]]) <= Score(es[ps[i]])
  }

  /** A best one is left aside, and j is best among the others. */
  ghost predicate SecondBest(es: seq<EndpointData>, ps: seq<nat>, j: nat)
    requires forall j :: 0 <= j < |ps| ==> ps[j] < |es|
  {
    && j < |ps|
    && exists b: nat :: b != j && Best(es, ps, b)
                        && forall i :: 0 <= i < |ps| && i != b ==> Score(es[ps[j]]) <= Score(es[ps[i]])
  }

  function IndexOf(s: State, kind: string): nat {
    if kind in s.index then s.index[kind] else 0
  }

  /** Which usable endpoint a strategy may pick: ticket is the integer draw, chance the real one. */
  ghost predicate ChoosesFrom(es: seq<EndpointData>, index: nat, strategy: Strategy, ticket: int, chance: real,
                              j: nat) {
    var ps := UsableAt(es);
    && j < |ps|
    && match strategy
       case LeastConnections => j == ScanLeast(Connections(es, ps)).1
       case WeightedRandom => 1 <= ticket <= Total(Weights(es, ps)) && j == Land(Weights(es, ps), ticket, 0)
       case AdaptiveLoad => if |ps| > 1 && chance < 0.1 then SecondBest(es, ps, j) else Best(es, ps, j)
       case _ => j == RoundRobinPick(index, |ps|)
  }

  ghost predicate Chooses(s: State, kind: string, strategy: Strategy, ticket: int, chance: real, j: nat) {
    ChoosesFrom(Members(s.groups, kind), IndexOf(s, kind), strategy, ticket, chance, j)
  }

  /** Only round robin, which is also the default, moves the index. */
  function IndexAfterPick(index: map<string, nat>, kind: string, strategy: Strategy, n: nat): map<string, nat>
    requires n > 0
  {
    match strategy
    case LeastConnections | WeightedRandom | AdaptiveLoad => index
    case _ => index[kind := RoundRobinNext(if kind in index then index[kind] else 0, n)]
  }

  /** The selected endpoint gets one more connection. */
  function Pick(s: State, kind: string, strategy: Strategy, j: nat): State
    requires j < |UsableAt(Members(s.groups, kind))|
  {
    var es := Members(s.groups, kind);
    var ps := UsableAt(es);
    var p := Place(kind, ps[j]);
    s.(groups := Put(s.groups, p, es[ps[j]].(connections := es[ps[j]].connections + 1)),
       index := IndexAfterPick(s.index, kind, strategy, |ps|))
  }

  // ---------- runs ----------

  datatype Config = Config(strategy: Strategy, timeout: int)

  datatype Step =
    | DoAdd(e: EndpointData)
    | DoRemove(id: string)
    | DoSetStatus(id: string, status: Status)
    | DoLookup(sid: string, now: int)
    | DoPick(kind: string, ticket: int, chance: real, j: nat)
    | DoSave(sid: string, eid: string, now: int)
    | DoRelease(id: string, responseTime: int, isError: bool)
    | DoCheck(id: string)
    | DoCleanup(now: int)
    | DoClear

  ghost predicate Enabled(s: State, c: Config, step: Step) {
    step.DoPick? ==> Chooses(s, step.kind, c.strategy, step.ticket, step.chance, step.j)
  }

  ghost function Do(s: State, c: Config, step: Step): State
    requires Enabled(s, c, step)
  {
    match step
    case DoAdd(e) => Add(s, e)
    case DoRemove(id) => Remove(s, id)
    case DoSetStatus(id, status) => SetStatus(s, id, status)
    case DoLookup(sid, now) => Lookup(s, sid, now, c.timeout).0
    case DoPick(kind, _, _, j) => Pick(s, kind, c.strategy, j)
    case DoSave(sid, eid, now) => Save(s, sid, eid, now)
    case DoRelease(id, rt, err) => Release(s, id, rt, err)
    case DoCheck(id) => Check(s, id)
    case DoCleanup(now) => Cleanup(s, now, c.timeout)
    case DoClear => s.(sessions := map[])
  }

  ghost predicate IsRun(run: seq<State>, c: Config, steps: seq<Step>) {
    && |run| == |steps| + 1
    && forall i :: 0 <= i < |steps| ==> Enabled(run[i], c, steps[i]) && run[i + 1] == Do(run[i], c, steps[i])
  }

  // ---------- ids stay unique ----------

  lemma OfAt(g: Groups<EndpointData>, p: Place)
    requires GroupsOk(g) && In(g, p)
    ensures Locate(g, Get(g, p).id) == Some(p) && Of(g, Get(g, p).id) == Some(Get(g, p))
  {
    assert Holds(g, Get(g, p).id, p);
  }

  lemma PutKeeps(g: Groups<EndpointData>, p: Place, e: EndpointData)
    requires GroupsOk(g) && In(g, p) && e.id == Get(g, p).id && e.kind == Get(g, p).kind
    ensures GroupsOk(Put(g, p, e))
    ensures forall x :: Of(Put(g, p, e), x) == if x == e.id then Some(e) else Of(g, x)
  {
    var h := Put(g, p, e);
    assert forall q :: In(h, q) <==> In(g, q);
    assert forall q | In(g, q) :: Get(h, q) == if q == p then e else Get(g, q);
    forall x
      ensures Of(h, x) == if x == e.id then Some(e) else Of(g, x)
    {
      assert forall q :: Holds(h, x, q) <==> Holds(g, x, q);
      OfAt(h, p);
    }
  }

  /** The new one comes last in its group; the others stay where they are. */
  lemma AppendMeans<T>(g: Groups<T>, kind: string, e: T, q: Place)
    ensures var last := Place(kind, |Members(g, kind)|);
            var h := Append(g, kind, e);
            && (In(h, q) <==> In(g, q) || q == last)
            && (In(h, q) ==> Get(h, q) == if q == last then e else Get(g, q))
  {
  }

  lemma AppendKinds<T>(g: Groups<T>, kind: string, e: T)
    ensures Append(g, kind, e).Keys == g.Keys + {kind}
  {
  }

  lemma AddKeeps(s: State, e: EndpointData)
    requires GroupsOk(s.groups)
    ensures GroupsOk(Add(s, e).groups)
    ensures forall x :: Of(Add(s, e).groups, x) == if x == e.id && !Present(s.groups, x) then Some(Welcome(e))
                                                   else Of(s.groups, x)
  {
    var g, h := s.groups, Add(s, e).groups;
    if !Present(g, e.id) {
      var last := Place(e.kind, |Members(g, e.kind)|);
      assert forall q :: In(h, q) <==> In(g, q) || q == last;
      assert forall q | In(g, q) :: Get(h, q) == Get(g, q);
      assert Get(h, last) == Welcome(e);
      forall q | In(g, q)
        ensures Get(g, q).id != e.id
      {
        assert Get(g, q).id == e.id ==> Holds(g, e.id, q);
      }
      assert GroupsOk(h);
      OfAt(h, last);
      forall x | x != e.id
        ensures Of(h, x) == Of(g, x)
      {
        assert forall q :: Holds(h, x, q) <==> Holds(g, x, q);
      }
    }
  }

  /** Where the endpoint at q of the shortened group was before. */
  function Before(p: Place, q: Place): Place {
    if q.kind == p.kind && q.at >= p.at then Place(q.kind, q.at + 1) else q
  }

  lemma DropMeans<T>(g: Groups<T>, p: Place, q: Place)
    requires In(g, p)
    ensures In(Drop(g, p), q) <==> In(g, Before(p, q))
    ensures In(Drop(g, p), q) ==> Get(Drop(g, p), q) == Get(g, Before(p, q)) && Before(p, q) != p
  {
  }

  lemma DropKinds<T>(g: Groups<T>, p: Place)
    requires In(g, p)
    ensures Drop(g, p).Keys == if |g[p.kind]| == 1 then g.Keys - {p.kind} else g.Keys
  {
  }

  lemma DropKeeps(g: Groups<EndpointData>, p: Place)
    requires GroupsOk(g) && In(g, p)
    ensures GroupsOk(Drop(g, p))
  {
    forall q
      ensures In(Drop(g, p), q) <==> In(g, Before(p, q))
      ensures In(Drop(g, p), q) ==> Get(Drop(g, p), q) == Get(g, Before(p, q)) && Before(p, q) != p
    {
      DropMeans(g, p, q);
    }
  }

  lemma DropForgets(g: Groups<EndpointData>, p: Place, x: string)
    requires GroupsOk(g) && In(g, p)
    ensures Of(Drop(g, p), x) == if x == Get(g, p).id then None else Of(g, x)
  {
    var h := Drop(g, p);
    DropKeeps(g, p);
    if Present(h, x) {
      var q := Locate(h, x).value;
      DropMeans(g, p, q);
      OfAt(g, Before(p, q));
      OfAt(g, p);
    } else if Present(g, x) && x != Get(g, p).id {
      var q := Locate(g, x).value;
      var r := if q.kind == p.kind && q.at > p.at then Place(q.kind, q.at - 1) else q;
      assert Before(p, r) == q;
      DropMeans(g, p, r);
      assert Holds(h, x, r);
    }
  }

  /** What a step does to the endpoint with a given id, in a table by id. */
  ghost function NextOf(s: State, c: Config, step: Step, id: string): Option<EndpointData>
    requires Enabled(s, c, step)
  {
    var o := Of(s.groups, id);
    match step
    case DoAdd(e) => if e.id == id && o.None? then Some(Welcome(e)) else o
    case DoRemove(x) => if x == id then None else o
    case DoSetStatus(x, status) => if x == id && o.Some? then Some(o.value.(status := status)) else o
    case DoPick(kind, _, _, j) =>
      if Picked(s, kind, j) == id && o.Some? then Some(o.value.(connections := o.value.connections + 1)) else o
    case DoRelease(x, rt, err) => if x == id && o.Some? then Some(Released(o.value, rt, err)) else o
    case DoCheck(x) => if x == id && o.Some? && o.value.status == Unhealthy
                        then Some(o.value.(status := Degraded)) else o
    case _ => o
  }

  function Picked(s: State, kind: string, j: nat): string
    requires j < |UsableAt(Members(s.groups, kind))|
  {
    var es := Members(s.groups, kind);
    es[UsableAt(es)[j]].id
  }

  lemma PickKeeps(s: State, kind: string, strategy: Strategy, j: nat, id: string)
    requires GroupsOk(s.groups) && j < |UsableAt(Members(s.groups, kind))|
    ensures var h := Pick(s, kind, strategy, j).groups;
            var o := Of(s.groups, id);
            && GroupsOk(h)
            && Of(h, id) == if Picked(s, kind, j) == id && o.Some?
                            then Some(o.value.(connections := o.value.connections + 1))
                            else o
  {
    var es := Members(s.groups, kind);
    var p := Place(kind, UsableAt(es)[j]);
    var e := Get(s.groups, p);
    OfAt(s.groups, p);
    PutKeeps(s.groups, p, e.(connections := e.connections + 1));
  }

  lemma RemoveKeeps(s: State, x: string, id: string)
    requires GroupsOk(s.groups)
    ensures GroupsOk(Remove(s, x).groups)
    ensures Of(Remove(s, x).groups, id) == if x == id then None else Of(s.groups, id)
  {
    var g := s.groups;
    hide GroupsOk, Drop;
    if Locate(g, x).Some? {
      DropKeeps(g, Locate(g, x).value);
      DropForgets(g, Locate(g, x).value, id);
    }
  }

  /** Overwriting a located endpoint, keeping its id and type. */
  lemma EditKeeps(g: Groups<EndpointData>, x: string, e: EndpointData, id: string)
    requires GroupsOk(g) && Of(g, x).Some? && e.id == x && e.kind == Of(g, x).value.kind
    ensures var h := Put(g, Locate(g, x).value, e);
            GroupsOk(h) && Of(h, id) == if x == id then Some(e) else Of(g, id)
  {
    PutKeeps(g, Locate(g, x).value, e);
  }

  lemma EditStepKeeps(s: State, c: Config, step: Step, id: string)
    requires GroupsOk(s.groups) && (step.DoSetStatus? || step.DoRelease? || step.DoCheck?)
    ensures GroupsOk(Do(s, c, step).groups)
    ensures Of(Do(s, c, step).groups, id) == NextOf(s, c, step, id)
  {
    hide GroupsOk, Put;
    var g, x := s.groups, step.id;
    if Of(g, x).Some? {
      var e := Of(g, x).value;
      match step
      case DoSetStatus(_, status) => EditKeeps(g, x, e.(status := status), id);
      case DoRelease(_, rt, err) => EditKeeps(g, x, Released(e, rt, err), id);
      case DoCheck(_) => EditKeeps(g, x, e.(status := Degraded), id);
    }
  }

  /** Every step keeps the groups keyed by type, non-empty and free of repeated ids, and on the table by
      id it does what its name says to one entry and nothing to the others. */
  lemma StepKeepsGroups(s: State, c: Config, step: Step, id: string)
    requires GroupsOk(s.groups) && Enabled(s, c, step)
    ensures GroupsOk(Do(s, c, step).groups)
    ensures Of(Do(s, c, step).groups, id) == NextOf(s, c, step, id)
  {
    hide GroupsOk, Locate, Add, Remove, Pick, Picked;
    if step.DoAdd? {
      AddKeeps(s, step.e);
    } else if step.DoRemove? {
      RemoveKeeps(s, step.id, id);
    } else if step.DoPick? {
      PickKeeps(s, step.kind, c.strategy, step.j, id);
    } else if step.DoSetStatus? || step.DoRelease? || step.DoCheck? {
      EditStepKeeps(s, c, step, id);
    }
  }

  lemma {:induction false} RunKeepsGroups(run: seq<State>, c: Config, steps: seq<Step>, i: nat)
    requires IsRun(run, c, steps) && GroupsOk(run[0].groups) && i < |run|
    ensures GroupsOk(run[i].groups)
  {
    if i > 0 {
      RunKeepsGroups(run, c, steps, i - 1);
      StepKeepsGroups(run[i - 1], c, steps[i - 1], "");
    }
  }

  // ---------- session lookups ----------

  /** A lookup returns an endpoint that is in a group right now and usable, and then only refreshes the
      session; otherwise it returns nothing and the session, if any, is gone. */
  lemma LookupIsSound(s: State, sid: string, now: int, timeout: int)
    ensures var (t, r) := Lookup(s, sid, now, timeout);
            && t.groups == s.groups && t.index == s.index
            && (forall x | x != sid :: x in t.sessions <==> x in s.sessions)
            && (forall x | x != sid && x in s.sessions :: t.sessions[x] == s.sessions[x])
            && match r
               case Some(id) =>
                 && Of(s.groups, id).Some? && Usable(Of(s.groups, id).value.status)
                 && t == Save(s, sid, id, now)
               case None => sid !in t.sessions
  {
    if Honours(s, sid, now, timeout) {
      assert s.sessions[sid].(endpointId := s.sessions[sid].endpointId, lastUsed := now)
             == s.sessions[sid].(lastUsed := now);
    }
  }

  /** Present and usable. */
  ghost predicate Serves(g: Groups<EndpointData>, id: string) {
    Of(g, id).Some? && Usable(Of(g, id).value.status)
  }

  predicate Saves(step: Step, sid: string, eid: string) {
    step.DoSave? && step.sid == sid && step.eid == eid
  }

  /** When the session was last saved or asked for, if it was at time t before the step. */
  function Touched(step: Step, sid: string, t: int): int {
    if (step.DoSave? || step.DoLookup?) && step.sid == sid then step.now else t
  }

  /** The same for the steps from m to before i. */
  function LastTouch(steps: seq<Step>, m: nat, i: nat, sid: string): int
    requires m < i <= |steps|
    decreases i
  {
    Touched(steps[i - 1], sid, if i == m + 1 then 0 else LastTouch(steps, m, i - 1, sid))
  }

  /** The step takes the session away from the endpoint, when it was last used at time t. */
  ghost predicate Ends(s: State, c: Config, step: Step, sid: string, eid: string, t: int) {
    match step
    case DoSave(x, other, _) => x == sid && other != eid
    case DoLookup(x, now) => x == sid && ((c.timeout > 0 && now - t > c.timeout) || !Serves(s.groups, eid))
    case DoRemove(x) => x == eid && Of(s.groups, eid).Some?
    case DoCleanup(now) => now - t > c.timeout
    case DoClear => true
    case _ => false
  }

  ghost predicate Remembers(s: State, sid: string, eid: string) {
    sid in s.sessions && s.sessions[sid].endpointId == eid
  }

  /** And it was last used at time t. */
  ghost predicate RemembersAt(s: State, sid: string, eid: string, t: int) {
    Remembers(s, sid, eid) && s.sessions[sid].lastUsed == t
  }

  lemma SaveRemembers(s: State, c: Config, step: Step, t: int)
    requires step.DoSave? && Enabled(s, c, step)
    ensures RemembersAt(Do(s, c, step), step.sid, step.eid, Touched(step, step.sid, t))
  {
  }

  lemma EndpointStepsKeepSessions(s: State, c: Config, step: Step)
    requires Enabled(s, c, step)
    requires step.DoAdd? || step.DoSetStatus? || step.DoPick? || step.DoRelease? || step.DoCheck?
    ensures Do(s, c, step).sessions == s.sessions
  {
    hide Locate, Put, Append, UsableAt, Chooses, Released, IndexAfterPick;
  }

  lemma StepRemembersIff(s: State, c: Config, step: Step, sid: string, eid: string, t: int)
    requires Enabled(s, c, step) && RemembersAt(s, sid, eid, t)
    ensures Remembers(Do(s, c, step), sid, eid) <==> !Ends(s, c, step, sid, eid, t)
    ensures Remembers(Do(s, c, step), sid, eid) ==> RemembersAt(Do(s, c, step), sid, eid, Touched(step, sid, t))
  {
    hide Locate, Put, Append, Drop, UsableAt, Chooses, Released, IndexAfterPick;
    if step.DoAdd? || step.DoSetStatus? || step.DoPick? || step.DoRelease? || step.DoCheck? {
      EndpointStepsKeepSessions(s, c, step);
    }
  }

  /** The session is the endpoint's after each step from m to before i. */
  ghost predicate RemembersAll(run: seq<State>, m: nat, i: nat, sid: string, eid: string)
    requires i < |run|
  {
    forall k :: m < k <= i ==> Remembers(run[k], sid, eid)
  }

  ghost predicate NoneEnds(run: seq<State>, c: Config, steps: seq<Step>, m: nat, i: nat, sid: string, eid: string)
    requires i <= |steps| < |run|
  {
    forall k :: m < k < i ==> !Ends(run[k], c, steps[k], sid, eid, LastTouch(steps, m, k, sid))
  }

  lemma RemembersMore(run: seq<State>, m: nat, i: nat, sid: string, eid: string)
    requires m < i < |run|
    ensures RemembersAll(run, m, i, sid, eid)
            <==> (m < i - 1 ==> RemembersAll(run, m, i - 1, sid, eid)) && Remembers(run[i], sid, eid)
  {
  }

  lemma EndsMore(run: seq<State>, c: Config, steps: seq<Step>, m: nat, i: nat, sid: string, eid: string)
    requires m < i <= |steps| < |run|
    ensures i == m + 1 ==> NoneEnds(run, c, steps, m, i, sid, eid)
    ensures m + 1 < i ==>
              (NoneEnds(run, c, steps, m, i, sid, eid)
               <==> NoneEnds(run, c, steps, m, i - 1, sid, eid)
                    && !Ends(run[i - 1], c, steps[i - 1], sid, eid, LastTouch(steps, m, i - 1, sid)))
  {
    hide Ends, LastTouch;
  }

  lemma KeptAtFirst(run: seq<State>, c: Config, steps: seq<Step>, m: nat, sid: string, eid: string)
    requires IsRun(run, c, steps) && m < |steps| && Saves(steps[m], sid, eid)
    ensures RemembersAt(run[m + 1], sid, eid, LastTouch(steps, m, m + 1, sid))
  {
    assert Enabled(run[m], c, steps[m]) && run[m + 1] == Do(run[m], c, steps[m]);
    hide Do, Enabled, RemembersAt;
    SaveRemembers(run[m], c, steps[m], 0);
  }

  lemma KeptStep(run: seq<State>, c: Config, steps: seq<Step>, m: nat, i: nat, sid: string, eid: string)
    requires IsRun(run, c, steps) && m + 1 < i <= |steps|
    requires RemembersAt(run[i - 1], sid, eid, LastTouch(steps, m, i - 1, sid))
    ensures Remembers(run[i], sid, eid)
            <==> !Ends(run[i - 1], c, steps[i - 1], sid, eid, LastTouch(steps, m, i - 1, sid))
    ensures Remembers(run[i], sid, eid) ==> RemembersAt(run[i], sid, eid, LastTouch(steps, m, i, sid))
  {
    assert Enabled(run[i - 1], c, steps[i - 1]) && run[i - 1 + 1] == Do(run[i - 1], c, steps[i - 1]);
    hide Do, Enabled, Remembers, RemembersAt, Ends, Touched;
    StepRemembersIff(run[i - 1], c, steps[i - 1], sid, eid, LastTouch(steps, m, i - 1, sid));
  }

  lemma AtIsRemembered(s: State, sid: string, eid: string, t: int)
    requires RemembersAt(s, sid, eid, t)
    ensures Remembers(s, sid, eid)
  {
  }

  lemma RunLength(run: seq<State>, c: Config, steps: seq<Step>)
    requires IsRun(run, c, steps)
    ensures |run| == |steps| + 1
  {
  }

  lemma KeptMore(run: seq<State>, c: Config, steps: seq<Step>, m: nat, i: nat, sid: string, eid: string)
    requires IsRun(run, c, steps) && m + 1 < i <= |steps| < |run|
    requires RemembersAll(run, m, i - 1, sid, eid) <==> NoneEnds(run, c, steps, m, i - 1, sid, eid)
    requires RemembersAll(run, m, i - 1, sid, eid) ==>
               RemembersAt(run[i - 1], sid, eid, LastTouch(steps, m, i - 1, sid))
    ensures RemembersAll(run, m, i, sid, eid) <==> NoneEnds(run, c, steps, m, i, sid, eid)
    ensures RemembersAll(run, m, i, sid, eid) ==> RemembersAt(run[i], sid, eid, LastTouch(steps, m, i, sid))
  {
    hide *;
    RemembersMore(run, m, i, sid, eid);
    EndsMore(run, c, steps, m, i, sid, eid);
    if RemembersAll(run, m, i - 1, sid, eid) {
      KeptStep(run, c, steps, m, i, sid, eid);
    }
  }

  /** From the moment a session is saved for an endpoint it is that endpoint's at every moment exactly until
      it is saved for another, cleared, looked up or cleaned up too late, looked up while the endpoint is gone
      or unusable, or the endpoint is removed: whatever happens to other sessions and endpoints. */
  lemma {:induction false} SessionIsKeptIff(run: seq<State>, c: Config, steps: seq<Step>, m: nat, i: nat,
                                            sid: string, eid: string)
    requires IsRun(run, c, steps) && m < i <= |steps| && Saves(steps[m], sid, eid)
    ensures RemembersAll(run, m, i, sid, eid) <==> NoneEnds(run, c, steps, m, i, sid, eid)
    ensures RemembersAll(run, m, i, sid, eid) ==> RemembersAt(run[i], sid, eid, LastTouch(steps, m, i, sid))
    decreases i
  {
    hide *;
    RunLength(run, c, steps);
    if i == m + 1 {
      RemembersMore(run, m, i, sid, eid);
      EndsMore(run, c, steps, m, i, sid, eid);
      KeptAtFirst(run, c, steps, m, sid, eid);
      AtIsRemembered(run[i], sid, eid, LastTouch(steps, m, i, sid));
    } else {
      SessionIsKeptIff(run, c, steps, m, i - 1, sid, eid);
      KeptMore(run, c, steps, m, i, sid, eid);
    }
  }

  /** So a request comes back to the endpoint its session was saved for: as long as nothing has ended the
      session, each lookup returns that endpoint, unless it is too late or the endpoint does not serve. */
  lemma SessionComesBack(run: seq<State>, c: Config, steps: seq<Step>, m: nat, i: nat, sid: string, eid: string)
    requires IsRun(run, c, steps) && m < i < |steps| && Saves(steps[m], sid, eid)
    requires NoneEnds(run, c, steps, m, i, sid, eid) && steps[i].DoLookup? && steps[i].sid == sid
    ensures Lookup(run[i], sid, steps[i].now, c.timeout).1
            == if c.timeout > 0 && steps[i].now - LastTouch(steps, m, i, sid) > c.timeout then None
               else if Serves(run[i].groups, eid) then Some(eid) else None
  {
    SessionIsKeptIff(run, c, steps, m, i, sid, eid);
    hide IsRun, Do, Enabled, Locate, Ends, NoneEnds, RemembersAll, LastTouch;
    assert RemembersAt(run[i], sid, eid, LastTouch(steps, m, i, sid));
  }

  /** And one that has ended is gone until it is saved again, even if its endpoint is back. */
  lemma {:induction false} GoneUntilSaved(run: seq<State>, c: Config, steps: seq<Step>, m: nat, i: nat, sid: string)
    requires IsRun(run, c, steps) && m <= i < |run| && sid !in run[m].sessions
    requires forall k :: m <= k < i && steps[k].DoSave? ==> steps[k].sid != sid
    ensures sid !in run[i].sessions
    decreases i
  {
    hide Do, Enabled;
    if m < i {
      GoneUntilSaved(run, c, steps, m, i - 1, sid);
      assert Enabled(run[i - 1], c, steps[i - 1]) && run[i - 1 + 1] == Do(run[i - 1], c, steps[i - 1]);
      StepBringsNoSession(run[i - 1], c, steps[i - 1], sid);
    }
  }

  lemma StepBringsNoSession(s: State, c: Config, step: Step, sid: string)
    requires Enabled(s, c, step) && sid !in s.sessions && (step.DoSave? ==> step.sid != sid)
    ensures sid !in Do(s, c, step).sessions
  {
    hide Locate, Put, Append, Drop, UsableAt, Chooses, Released, IndexAfterPick;
    if step.DoAdd? || step.DoSetStatus? || step.DoPick? || step.DoRelease? || step.DoCheck? {
      EndpointStepsKeepSessions(s, c, step);
    }
  }

  /** When a session was created does not change until it ends, and a new one is created when it is saved. */
  lemma CreationIsKept(s: State, c: Config, step: Step, sid: string)
    requires Enabled(s, c, step) && sid in Do(s, c, step).sessions
    ensures var created := Do(s, c, step).sessions[sid].createdAt;
            if sid in s.sessions then created == s.sessions[sid].createdAt
            else step.DoSave? && step.sid == sid && created == step.now
  {
    hide Locate, Put, Append, Drop, UsableAt, Chooses, Released, IndexAfterPick;
    if step.DoAdd? || step.DoSetStatus? || step.DoPick? || step.DoRelease? || step.DoCheck? {
      EndpointStepsKeepSessions(s, c, step);
    }
  }

  // ---------- what endpoints become ----------

  /** An endpoint that was not there serves once it is added exactly if it came healthy, degraded or without
      a status, and nothing else about it is changed. */
  lemma AddedServesIff(s: State, c: Config, e: EndpointData)
    requires GroupsOk(s.groups) && Of(s.groups, e.id).None?
    ensures var g := Do(s, c, DoAdd(e)).groups;
            && (Serves(g, e.id) <==> e.status in {Unset, Healthy, Degraded})
            && Of(g, e.id).Some? && Of(g, e.id).value.(status := e.status) == e
            && (e.status != Unset ==> Of(g, e.id).value == e)
  {
    StepKeepsGroups(s, c, DoAdd(e), e.id);
    hide GroupsOk, Do, Of;
  }

  /** The endpoint after k releases that each report the same. */
  function ReleasedOften(e: EndpointData, responseTime: int, isError: bool, k: nat): EndpointData {
    if k == 0 then e else Released(ReleasedOften(e, responseTime, isError, k - 1), responseTime, isError)
  }

  /** The error rate closes in on 1 or on 0 by a tenth with each release, and so never leaves that range. */
  lemma {:induction false} ErrorRateAfter(e: EndpointData, responseTime: int, k: nat)
    ensures 1.0 - ReleasedOften(e, responseTime, true, k).errorRate == (1.0 - e.errorRate) * Power(0.9, k)
    ensures ReleasedOften(e, responseTime, false, k).errorRate == e.errorRate * Power(0.9, k)
  {
    if k > 0 {
      ErrorRateAfter(e, responseTime, k - 1);
    }
  }

  /** Where an average of a is after k reports of r. */
  function Average(a: int, r: int, k: nat): real {
    r as real + Power(0.9, k) * (a - r) as real
  }

  lemma AverageNext(a: int, r: int, k: nat)
    ensures Average(a, r, 0) == a as real
    ensures k > 0 ==> Average(a, r, k) == 0.9 * Average(a, r, k - 1) + 0.1 * r as real
  {
    if k > 0 {
      NextPower(0.9, k, (a - r) as real);
    }
  }

  /** Ten nanoseconds is the most that rounding takes off. */
  ghost predicate Near(x: int, exact: real) {
    0 < x && exact - 10.0 < x as real <= exact
  }

  lemma NextResponseTime(e: EndpointData, r: int, isError: bool, exact: real)
    requires r > 0 && Near(e.responseTime, exact)
    ensures Near(Released(e, r, isError).responseTime, 0.9 * exact + 0.1 * r as real)
  {
    TenthFloors(e.responseTime * 9 + r);
  }

  lemma {:induction false} ResponseTimeNears(e: EndpointData, r: int, isError: bool, k: nat)
    requires r > 0 && e.responseTime > 0
    ensures Near(ReleasedOften(e, r, isError, k).responseTime, Average(e.responseTime, r, k))
  {
    AverageNext(e.responseTime, r, k);
    if k > 0 {
      hide Average, Near, Released;
      ResponseTimeNears(e, r, isError, k - 1);
      NextResponseTime(ReleasedOften(e, r, isError, k - 1), r, isError, Average(e.responseTime, r, k - 1));
    }
  }

  /** The response time starts at the first one reported; k more of r bring it from a to
      r + 0.9^k (a - r), but for the rounding. */
  lemma ResponseTimeAfter(e: EndpointData, r: int, isError: bool, k: nat)
    requires r > 0
    ensures e.responseTime == 0 ==> Released(e, r, isError).responseTime == r
    ensures e.responseTime > 0 ==>
              Near(ReleasedOften(e, r, isError, k).responseTime, Average(e.responseTime, r, k))
  {
    hide Near, ReleasedOften, Average;
    if e.responseTime > 0 {
      ResponseTimeNears(e, r, isError, k);
    }
  }

  /** What is not positive is no report. */
  lemma NoReport(e: EndpointData, responseTime: int, isError: bool)
    ensures responseTime <= 0 ==> Released(e, responseTime, isError).responseTime == e.responseTime
  {
  }

  lemma TenthFloors(x: int)
    requires x >= 10
    ensures 0 < Tenth(x) && 10 * Tenth(x) <= x < 10 * Tenth(x) + 10
  {
  }

  /** What makes an endpoint worse for the adaptive strategy: its share of connections counts 0.4, a second
      of response time 0.4 up to ten seconds, its error rate 2, and an idle one that never failed has 0. */
  lemma ScoreCosts(e: EndpointData, n: int, t: int, x: real)
    ensures e.connections == 0 && e.responseTime == 0 && e.errorRate == 0.0 ==> Score(e) == 0.0
    ensures var room := if e.maxConnections > 0 then e.maxConnections else 100;
            (Score(e.(connections := e.connections + n)) - Score(e)) * room as real == 0.4 * n as real
    ensures e.responseTime <= 10_000_000_000 && e.responseTime + t <= 10_000_000_000 ==>
              (Score(e.(responseTime := e.responseTime + t)) - Score(e)) * 1_000_000_000.0 == 0.4 * t as real
    ensures e.responseTime >= 10_000_000_000 ==>
              Score(e) == Score(e.(responseTime := 10_000_000_000))
    ensures Score(e.(errorRate := e.errorRate + x)) - Score(e) == 2.0 * x
  {
    LoadCosts(e, n);
    TimeCosts(e, t);
    ErrorsCost(e, x);
    hide Score;
  }

  lemma LoadCosts(e: EndpointData, n: int)
    ensures e.connections == 0 && e.responseTime == 0 && e.errorRate == 0.0 ==> Score(e) == 0.0
    ensures var room := if e.maxConnections > 0 then e.maxConnections else 100;
            (Score(e.(connections := e.connections + n)) - Score(e)) * room as real == 0.4 * n as real
  {
  }

  lemma TimeCosts(e: EndpointData, t: int)
    ensures e.responseTime <= 10_000_000_000 && e.responseTime + t <= 10_000_000_000 ==>
              (Score(e.(responseTime := e.responseTime + t)) - Score(e)) * 1_000_000_000.0 == 0.4 * t as real
    ensures e.responseTime >= 10_000_000_000 ==>
              Score(e) == Score(e.(responseTime := 10_000_000_000))
  {
  }

  lemma ErrorsCost(e: EndpointData, x: real)
    ensures Score(e.(errorRate := e.errorRate + x)) - Score(e) == 2.0 * x
  {
  }

  /** The adaptive strategy picks an endpoint of least score, except that for one draw in ten it leaves one such
      endpoint out. */
  lemma AdaptiveSparesOne(es: seq<EndpointData>, index: nat, ticket: int, chance: real, j: nat) returns (spared: nat)
    requires ChoosesFrom(es, index, AdaptiveLoad, ticket, chance, j)
    ensures var ps := UsableAt(es);
            && j < |ps|
            && (10.0 * chance >= 1.0 || |ps| == 1 ==> spared == |ps|)
            && (10.0 * chance < 1.0 && |ps| > 1 ==>
                  spared < |ps| && spared != j && Score(es[ps[spared]]) <= Score(es[ps[j]]))
            && forall i :: 0 <= i < |ps| && i != spared ==> Score(es[ps[j]]) <= Score(es[ps[i]])
  {
    var ps := UsableAt(es);
    hide UsableAt, Score, Connections, Weights;
    spared := |ps|;
    if |ps| > 1 && chance < 0.1 {
      spared :| spared != j && Best(es, ps, spared)
                && forall i :: 0 <= i < |ps| && i != spared ==> Score(es[ps[j]]) <= Score(es[ps[i]]);
    }
  }

  /** An absent endpoint stays absent until it is added again. */
  lemma {:induction false} AbsentUntilAdded(run: seq<State>, c: Config, steps: seq<Step>, m: nat, i: nat, id: string)
    requires IsRun(run, c, steps) && GroupsOk(run[0].groups) && m <= i < |run|
    requires Of(run[m].groups, id).None?
    requires forall k :: m <= k < i && steps[k].DoAdd? ==> steps[k].e.id != id
    ensures Of(run[i].groups, id).None?
    decreases i - m
  {
    if m < i {
      RunKeepsGroups(run, c, steps, m);
      StepKeepsGroups(run[m], c, steps[m], id);
      hide GroupsOk, Do, Of, Enabled;
      AbsentUntilAdded(run, c, steps, m + 1, i, id);
    }
  }

  /** Whatever was looked up, picked and saved in between, in whatever order: after an endpoint is
      removed no lookup returns it until it is added again, no lookup ever returns an unhealthy one, and
      a session that cannot be honoured is gone after its next lookup. */
  lemma LookupsNeverDangle(run: seq<State>, c: Config, steps: seq<Step>, m: nat, i: nat)
    requires IsRun(run, c, steps) && GroupsOk(run[0].groups) && m < i < |steps|
    requires steps[m].DoRemove? && steps[i].DoLookup?
    requires forall k :: m < k < i && steps[k].DoAdd? ==> steps[k].e.id != steps[m].id
    ensures var (t, r) := Lookup(run[i], steps[i].sid, steps[i].now, c.timeout);
            && run[i + 1] == t
            && r != Some(steps[m].id)
            && (r.Some? ==> Of(t.groups, r.value).Some? && Usable(Of(t.groups, r.value).value.status))
            && (r.None? ==> steps[i].sid !in t.sessions)
  {
    RunKeepsGroups(run, c, steps, m);
    StepKeepsGroups(run[m], c, steps[m], steps[m].id);
    AbsentUntilAdded(run, c, steps, m + 1, i, steps[m].id);
    LookupIsSound(run[i], steps[i].sid, steps[i].now, c.timeout);
  }

  // ---------- what the connection counts mean ----------

  /** Requests sent to one endpoint by selection and by session, releases, and releases at zero. */
  datatype Ledger = Ledger(picks: nat, hits: nat, releases: nat, idle: nat)

  ghost function Book(l: Ledger, s: State, c: Config, step: Step, id: string): Ledger
    requires Enabled(s, c, step)
  {
    match step
    case DoPick(kind, _, _, j) => if Picked(s, kind, j) == id then l.(picks := l.picks + 1) else l
    case DoLookup(sid, now) => if Lookup(s, sid, now, c.timeout).1 == Some(id) then l.(hits := l.hits + 1) else l
    case DoRelease(x, _, _) =>
      if x == id then
        l.(releases := l.releases + 1,
           idle := l.idle + if Of(s.groups, id).Some? && Of(s.groups, id).value.connections == 0 then 1 else 0)
      else l
    case _ => l
  }

  ghost function Tally(run: seq<State>, c: Config, steps: seq<Step>, i: nat, id: string): Ledger
    requires IsRun(run, c, steps) && i <= |steps|
  {
    if i == 0 then Ledger(0, 0, 0, 0) else Book(Tally(run, c, steps, i - 1, id), run[i - 1], c, steps[i - 1], id)
  }

  /** The requests an endpoint has received and not yet been released from. */
  ghost function Outstanding(run: seq<State>, c: Config, steps: seq<Step>, i: nat, id: string): int
    requires IsRun(run, c, steps) && i <= |steps| && Of(run[0].groups, id).Some?
  {
    var l := Tally(run, c, steps, i, id);
    Of(run[0].groups, id).value.connections + l.picks + l.hits - l.releases
  }

  /** The endpoint is there from the start and stays. */
  ghost predicate Stays(run: seq<State>, c: Config, steps: seq<Step>, id: string) {
    && IsRun(run, c, steps) && GroupsOk(run[0].groups)
    && Of(run[0].groups, id).Some? && Of(run[0].groups, id).value.connections >= 0
    && forall k :: 0 <= k < |steps| && steps[k].DoRemove? ==> steps[k].id != id
  }

  /** In every run an endpoint's count is its selections less its releases, plus the releases that came
      at zero; so it is never negative, and the requests a session sent there are not in it. */
  lemma {:induction false} ConnectionsAreCounted(run: seq<State>, c: Config, steps: seq<Step>, i: nat, id: string)
    requires Stays(run, c, steps, id) && i <= |steps|
    ensures var l := Tally(run, c, steps, i, id);
            && Of(run[i].groups, id).Some?
            && Of(run[i].groups, id).value.connections ==
               Of(run[0].groups, id).value.connections + l.picks - l.releases + l.idle
            && Of(run[i].groups, id).value.connections >= 0
  {
    hide GroupsOk, Do, Of, Lookup, Picked, Enabled;
    if i > 0 {
      ConnectionsAreCounted(run, c, steps, i - 1, id);
      RunKeepsGroups(run, c, steps, i - 1);
      StepKeepsGroups(run[i - 1], c, steps[i - 1], id);
    }
  }

  /** Every release of the endpoint before step i answers an outstanding request. */
  ghost predicate Answered(run: seq<State>, c: Config, steps: seq<Step>, i: nat, id: string)
    requires IsRun(run, c, steps) && i <= |steps| && Of(run[0].groups, id).Some?
  {
    forall k :: 0 <= k < i && steps[k].DoRelease? && steps[k].id == id ==> Outstanding(run, c, steps, k, id) > 0
  }

  /** The count never exceeds the outstanding requests: releases at zero are never more than the requests
      sessions sent. */
  lemma {:induction false} ConnectionsNeverExceedOutstanding(run: seq<State>, c: Config, steps: seq<Step>, i: nat,
                                                             id: string)
    requires Stays(run, c, steps, id) && i <= |steps| && Answered(run, c, steps, i, id)
    ensures Of(run[i].groups, id).Some?
    ensures var l := Tally(run, c, steps, i, id);
            var count := Of(run[i].groups, id).value.connections;
            && 0 <= count <= Outstanding(run, c, steps, i, id)
            && (count == Outstanding(run, c, steps, i, id) <==> l.idle == l.hits)
  {
    ConnectionsAreCounted(run, c, steps, i, id);
    if i > 0 {
      ConnectionsNeverExceedOutstanding(run, c, steps, i - 1, id);
      ConnectionsAreCounted(run, c, steps, i - 1, id);
      hide GroupsOk, Do, Of, Lookup, Picked, Enabled;
    }
  }

  ghost predicate Exact(run: seq<State>, c: Config, steps: seq<Step>, i: nat, id: string)
    requires IsRun(run, c, steps) && i <= |steps| && Of(run[0].groups, id).Some?
  {
    Of(run[i].groups, id).Some? && Of(run[i].groups, id).value.connections == Outstanding(run, c, steps, i, id)
  }

  ghost predicate AlwaysExact(run: seq<State>, c: Config, steps: seq<Step>, i: nat, id: string)
    requires IsRun(run, c, steps) && i <= |steps| && Of(run[0].groups, id).Some?
  {
    forall k :: 0 <= k <= i ==> Exact(run, c, steps, k, id)
  }

  lemma TallyStep(run: seq<State>, c: Config, steps: seq<Step>, i: nat, id: string)
    requires IsRun(run, c, steps) && 0 < i <= |steps|
    ensures var l, l' := Tally(run, c, steps, i - 1, id), Tally(run, c, steps, i, id);
            || (l'.hits == l.hits && l'.idle == l.idle)
            || (l'.hits == l.hits + 1 && l'.idle == l.idle)
            || (l'.hits == l.hits && l'.idle == l.idle + 1)
  {
  }

  lemma AlwaysExactMore(run: seq<State>, c: Config, steps: seq<Step>, i: nat, id: string)
    requires IsRun(run, c, steps) && 0 < i <= |steps| && Of(run[0].groups, id).Some?
    ensures AlwaysExact(run, c, steps, i, id) <==> AlwaysExact(run, c, steps, i - 1, id) && Exact(run, c, steps, i, id)
  {
    hide Exact;
  }

  lemma ExactMeans(run: seq<State>, c: Config, steps: seq<Step>, i: nat, k: nat, id: string)
    requires Stays(run, c, steps, id) && k <= i <= |steps| && Answered(run, c, steps, i, id)
    ensures Exact(run, c, steps, k, id) <==> Tally(run, c, steps, k, id).idle == Tally(run, c, steps, k, id).hits
    ensures Tally(run, c, steps, k, id).idle <= Tally(run, c, steps, k, id).hits
    ensures Answered(run, c, steps, k, id)
  {
    ConnectionsNeverExceedOutstanding(run, c, steps, k, id);
    ConnectionsAreCounted(run, c, steps, k, id);
  }

  /** The count has been the number of outstanding requests at every moment so far exactly if no session
      has sent the endpoint a request. */
  lemma {:induction false} ConnectionsAreExactIff(run: seq<State>, c: Config, steps: seq<Step>, i: nat, id: string)
    requires Stays(run, c, steps, id) && i <= |steps| && Answered(run, c, steps, i, id)
    ensures AlwaysExact(run, c, steps, i, id) <==> Tally(run, c, steps, i, id).hits == 0
  {
    ExactMeans(run, c, steps, i, i, id);
    if i == 0 {
      return;
    }
    TallyStep(run, c, steps, i, id);
    AlwaysExactMore(run, c, steps, i, id);
    ExactMeans(run, c, steps, i, i - 1, id);
    hide AlwaysExact, Exact, Tally, Answered, Outstanding;
    ConnectionsAreExactIff(run, c, steps, i - 1, id);
    assert AlwaysExact(run, c, steps, i - 1, id) ==> Exact(run, c, steps, i - 1, id) by {
      ExactNow(run, c, steps, i - 1, id);
    }
  }

  lemma ExactNow(run: seq<State>, c: Config, steps: seq<Step>, i: nat, id: string)
    requires IsRun(run, c, steps) && i <= |steps| && Of(run[0].groups, id).Some?
    ensures AlwaysExact(run, c, steps, i, id) ==> Exact(run, c, steps, i, id)
  {
    hide Exact;
  }

  const LONE: EndpointData := EndpointData("a", "llm", 1, 100, Healthy, 0, 0, 0.0)
  const ONE_AND_SESSION: State := State(map["llm" := [LONE]], map["s" := Session("a", 0, 0)], map[])

  /** A concrete case: the only endpoint of a type is unhealthy. */
  lemma NoneUsable()
    ensures UsableAt([LONE.(status := Unhealthy)]) == []
  {
    assert [LONE.(status := Unhealthy)][..0] == [];
  }

  lemma LoneEndpoint()
    ensures GroupsOk(ONE_AND_SESSION.groups) && Of(ONE_AND_SESSION.groups, "a") == Some(LONE)
    ensures UsableAt(Members(ONE_AND_SESSION.groups, "llm")) == [0]
  {
    var g := ONE_AND_SESSION.groups;
    assert forall q | In(g, q) :: q == Place("llm", 0);
    OfAt(g, Place("llm", 0));
    assert [LONE][..0] == [];
  }

  lemma LonePick(c: Config, pick: Step)
    requires c == Config(RoundRobin, 0) && pick == DoPick("llm", 0, 0.0, 0)
    ensures Enabled(ONE_AND_SESSION, c, pick) && Picked(ONE_AND_SESSION, "llm", 0) == "a"
    ensures var t := Do(ONE_AND_SESSION, c, pick);
            Of(t.groups, "a") == Some(LONE.(connections := 1)) && t.sessions == ONE_AND_SESSION.sessions
  {
    LoneEndpoint();
    hide UsableAt, GroupsOk, Of, Locate, Connections, Weights, Best, SecondBest, Put;
    StepKeepsGroups(ONE_AND_SESSION, c, pick, "a");
  }

  lemma SessionRun() returns (run: seq<State>, c: Config, steps: seq<Step>)
    ensures Stays(run, c, steps, "a") && steps == [DoPick("llm", 0, 0.0, 0), DoLookup("s", 0), DoRelease("a", 0, false)]
    ensures Of(run[0].groups, "a").value.connections == 0 && Picked(run[0], "llm", 0) == "a"
    ensures Lookup(run[1], "s", 0, c.timeout).1 == Some("a")
    ensures Of(run[2].groups, "a").Some? && Of(run[2].groups, "a").value.connections == 1
  {
    c := Config(RoundRobin, 0);
    var s0 := ONE_AND_SESSION;
    steps := [DoPick("llm", 0, 0.0, 0), DoLookup("s", 0), DoRelease("a", 0, false)];
    LoneEndpoint();
    LonePick(c, steps[0]);
    var s1 := Do(s0, c, steps[0]);
    hide UsableAt, GroupsOk, Of, Locate, Chooses, Pick, Picked, Release, Honours, Lookup;
    LookupHits(s1, "s", LONE.(connections := 1));
    var s2 := Do(s1, c, steps[1]);
    run := [s0, s1, s2, Do(s2, c, steps[2])];
  }

  /** With session affinity the two do come apart: one selection, one session request and one release
      leave a request outstanding on an endpoint that counts none. */
  lemma SessionRequestsAreNotCounted() returns (run: seq<State>, c: Config, steps: seq<Step>)
    ensures Stays(run, c, steps, "a") && |steps| == 3
    ensures Outstanding(run, c, steps, 2, "a") == 2 && steps[2].DoRelease? && steps[2].id == "a"
    ensures Outstanding(run, c, steps, 3, "a") == 1
    ensures Of(run[3].groups, "a").Some? && Of(run[3].groups, "a").value.connections == 0
  {
    hide GroupsOk, Of, Do, Lookup, Picked, Enabled;
    run, c, steps := SessionRun();
    assert Tally(run, c, steps, 1, "a") == Ledger(1, 0, 0, 0);
    assert Tally(run, c, steps, 2, "a") == Ledger(1, 1, 0, 0);
    assert Tally(run, c, steps, 3, "a") == Ledger(1, 1, 1, 0);
    ConnectionsAreCounted(run, c, steps, 3, "a");
  }

  lemma LookupHits(s: State, sid: string, e: EndpointData)
    requires sid in s.sessions && Of(s.groups, s.sessions[sid].endpointId) == Some(e) && Usable(e.status)
    ensures Lookup(s, sid, 0, 0).1 == Some(s.sessions[sid].endpointId) && Lookup(s, sid, 0, 0).0.groups == s.groups
  {
  }

  // ---------- balance and fairness over runs ----------

  /** Selections, and steps that leave the endpoints of this type as they are: no releases, no changes of
      status and no additions or removals among them. */
  ghost predicate Calm(s: State, c: Config, step: Step, kind: string)
    requires Enabled(s, c, step)
  {
    step.DoPick? || Members(Do(s, c, step).groups, kind) == Members(s.groups, kind)
  }

  ghost predicate CalmRun(run: seq<State>, c: Config, steps: seq<Step>, kind: string, i: nat) {
    && IsRun(run, c, steps) && i <= |steps|
    && forall k :: 0 <= k < i ==> Enabled(run[k], c, steps[k]) && Calm(run[k], c, steps[k], kind)
  }

  /** The step is a selection, or is about sessions or about endpoints of other types. */
  ghost predicate Elsewhere(s: State, step: Step, kind: string) {
    && (step.DoAdd? ==> step.e.kind != kind || Present(s.groups, step.e.id))
    && (step.DoRemove? || step.DoSetStatus? || step.DoRelease? || step.DoCheck? ==>
          Locate(s.groups, step.id).None? || Locate(s.groups, step.id).value.kind != kind)
  }

  lemma ElsewhereIsCalm(s: State, c: Config, step: Step, kind: string)
    requires Enabled(s, c, step) && Elsewhere(s, step, kind)
    ensures Calm(s, c, step, kind)
  {
    hide Locate, Honours, Chooses;
  }

  /** So every run of such steps is calm. */
  lemma ElsewhereRunsAreCalm(run: seq<State>, c: Config, steps: seq<Step>, kind: string, i: nat)
    requires IsRun(run, c, steps) && i <= |steps|
    requires forall k :: 0 <= k < i ==> Elsewhere(run[k], steps[k], kind)
    ensures CalmRun(run, c, steps, kind, i)
  {
    hide Enabled, Do, Calm, Elsewhere;
    forall k | 0 <= k < i
      ensures Enabled(run[k], c, steps[k]) && Calm(run[k], c, steps[k], kind)
    {
      ElsewhereIsCalm(run[k], c, steps[k], kind);
    }
  }

  function PicksOf(steps: seq<Step>, i: nat, kind: string): nat
    requires i <= |steps|
  {
    if i == 0 then 0 else
    PicksOf(steps, i - 1, kind) + if Selects(steps[i - 1], kind) then 1 else 0
  }

  lemma {:induction false} UsableByStatus(es: seq<EndpointData>, fs: seq<EndpointData>)
    requires |es| == |fs| && forall p :: 0 <= p < |es| ==> es[p].status == fs[p].status
    ensures UsableAt(es) == UsableAt(fs)
  {
    if es != [] {
      UsableByStatus(es[..|es| - 1], fs[..|es| - 1]);
    }
  }

  function Counts(s: State, kind: string): seq<int> {
    Connections(Members(s.groups, kind), UsableAt(Members(s.groups, kind)))
  }

  lemma PickCounts(s: State, kind: string, strategy: Strategy, j: nat)
    requires j < |UsableAt(Members(s.groups, kind))|
    ensures var t := Pick(s, kind, strategy, j);
            && UsableAt(Members(t.groups, kind)) == UsableAt(Members(s.groups, kind))
            && Counts(t, kind) == Counts(s, kind)[j := Counts(s, kind)[j] + 1]
  {
    var t := Pick(s, kind, strategy, j);
    var es, fs := Members(s.groups, kind), Members(t.groups, kind);
    var ps := UsableAt(es);
    UsableByStatus(es, fs);
    UsableAtMeans(es);
    forall i | 0 <= i < |ps|
      ensures Counts(t, kind)[i] == if i == j then Counts(s, kind)[j] + 1 else Counts(s, kind)[i]
    {
      assert i != j ==> ps[i] != ps[j];
    }
  }

  predicate Selects(step: Step, kind: string) {
    step.DoPick? && step.kind == kind
  }

  lemma CalmElsewhere(s: State, c: Config, step: Step, kind: string)
    requires Enabled(s, c, step) && Calm(s, c, step, kind) && !Selects(step, kind)
    ensures var t := Do(s, c, step);
            && UsableAt(Members(t.groups, kind)) == UsableAt(Members(s.groups, kind))
            && Counts(t, kind) == Counts(s, kind) && IndexOf(t, kind) == IndexOf(s, kind)
  {
    hide UsableAt, Connections, Honours, Chooses;
    assert Members(Do(s, c, step).groups, kind) == Members(s.groups, kind);
  }

  /** Every selection takes one of those that can be counted. */
  lemma ChoosesCounted(s: State, kind: string, strategy: Strategy, ticket: int, chance: real, j: nat)
    requires Chooses(s, kind, strategy, ticket, chance, j)
    ensures j < |Counts(s, kind)| == |UsableAt(Members(s.groups, kind))|
    ensures strategy == LeastConnections ==> j == ScanLeast(Counts(s, kind)).1
    ensures Rotates(strategy) ==> j == RoundRobinPick(IndexOf(s, kind), |Counts(s, kind)|)
  {
    hide UsableAt, Connections, ScanLeast, RoundRobinPick, IndexOf;
  }

  lemma PickIndex(s: State, kind: string, strategy: Strategy, j: nat)
    requires j < |UsableAt(Members(s.groups, kind))| && Rotates(strategy)
    ensures IndexOf(Pick(s, kind, strategy, j), kind)
            == RoundRobinNext(IndexOf(s, kind), |UsableAt(Members(s.groups, kind))|)
  {
    hide UsableAt, RoundRobinNext;
  }

  lemma SelectsPicks(s: State, c: Config, step: Step, kind: string)
    requires Enabled(s, c, step) && Selects(step, kind)
    ensures step.DoPick? && Chooses(s, kind, c.strategy, step.ticket, step.chance, step.j)
    ensures step.j < |UsableAt(Members(s.groups, kind))| && Do(s, c, step) == Pick(s, kind, c.strategy, step.j)
  {
    hide UsableAt, Connections, ScanLeast, Pick;
  }

  lemma CalmSelects(s: State, c: Config, step: Step, kind: string)
    requires Enabled(s, c, step) && Selects(step, kind)
    ensures var t := Do(s, c, step);
            && UsableAt(Members(t.groups, kind)) == UsableAt(Members(s.groups, kind))
            && step.j < |Counts(s, kind)|
            && Counts(t, kind) == Counts(s, kind)[step.j := Counts(s, kind)[step.j] + 1]
            && (c.strategy == LeastConnections ==> step.j == ScanLeast(Counts(s, kind)).1)
            && (Rotates(c.strategy) ==>
                  && step.j == RoundRobinPick(IndexOf(s, kind), |Counts(s, kind)|)
                  && IndexOf(t, kind) == RoundRobinNext(IndexOf(s, kind), |Counts(s, kind)|))
  {
    hide *;
    SelectsPicks(s, c, step, kind);
    ChoosesCounted(s, kind, c.strategy, step.ticket, step.chance, step.j);
    PickCounts(s, kind, c.strategy, step.j);
    if Rotates(c.strategy) {
      PickIndex(s, kind, c.strategy, step.j);
    }
  }

  lemma {:induction false} LeastConnectionsInRuns(run: seq<State>, c: Config, steps: seq<Step>, kind: string, i: nat)
    requires CalmRun(run, c, steps, kind, i) && c.strategy == LeastConnections
    requires Counts(run[0], kind) != []
    ensures Counts(run[i], kind) == SelectMany(Counts(run[0], kind), PicksOf(steps, i, kind))
  {
    hide Do, Enabled, Counts, ScanLeast;
    if i > 0 {
      LeastConnectionsInRuns(run, c, steps, kind, i - 1);
      var s, t, step := run[i - 1], run[i], steps[i - 1];
      var start, k := Counts(run[0], kind), PicksOf(steps, i - 1, kind);
      if Selects(step, kind) {
        assert PicksOf(steps, i, kind) == k + 1;
        CalmSelects(s, c, step, kind);
        assert SelectMany(start, k + 1) == Select(SelectMany(start, k));
        assert Counts(t, kind) == Select(Counts(s, kind));
      } else {
        CalmElsewhere(s, c, step, kind);
        assert PicksOf(steps, i, kind) == k;
      }
    }
  }

  /** Least connections balances in every run over a fixed usable set without releases, with lookups,
      saves and other groups' selections in between: the gap never exceeds max(initial gap, 1). */
  lemma RunsStayBalanced(run: seq<State>, c: Config, steps: seq<Step>, kind: string, i: nat, g: int)
    requires CalmRun(run, c, steps, kind, i) && c.strategy == LeastConnections
    requires NonNegative(Counts(run[0], kind)) && Gap(Counts(run[0], kind), g)
    ensures Gap(Counts(run[i], kind), if g < 1 then 1 else g)
  {
    if Counts(run[0], kind) == [] {
      UsableStays(run, c, steps, kind, i);
    } else {
      LeastConnectionsInRuns(run, c, steps, kind, i);
      LeastConnectionsBalances(Counts(run[0], kind), g, PicksOf(steps, i, kind));
    }
  }

  lemma {:induction false} UsableStays(run: seq<State>, c: Config, steps: seq<Step>, kind: string, i: nat)
    requires CalmRun(run, c, steps, kind, i)
    ensures UsableAt(Members(run[i].groups, kind)) == UsableAt(Members(run[0].groups, kind))
  {
    hide Do, Enabled, UsableAt, Members;
    if i > 0 {
      UsableStays(run, c, steps, kind, i - 1);
      if Selects(steps[i - 1], kind) {
        CalmSelects(run[i - 1], c, steps[i - 1], kind);
      } else {
        CalmElsewhere(run[i - 1], c, steps[i - 1], kind);
      }
    }
  }

  lemma {:induction false} RoundRobinInRuns(run: seq<State>, c: Config, steps: seq<Step>, kind: string, i: nat, j: nat)
    requires CalmRun(run, c, steps, kind, i) && Rotates(c.strategy)
    requires j < |Counts(run[0], kind)|
    ensures var n, k := |Counts(run[0], kind)|, PicksOf(steps, i, kind);
            && |Counts(run[i], kind)| == n
            && IndexOf(run[i], kind) == IndexAfter(IndexOf(run[0], kind), n, k)
            && Counts(run[i], kind)[j] == Counts(run[0], kind)[j] + TimesPicked(IndexOf(run[0], kind), n, k, j)
  {
    hide Do, Enabled, Counts, IndexOf, RoundRobinPick, RoundRobinNext;
    if i > 0 {
      RoundRobinInRuns(run, c, steps, kind, i - 1, j);
      var s, t, step := run[i - 1], run[i], steps[i - 1];
      var start, n, k := IndexOf(run[0], kind), |Counts(run[0], kind)|, PicksOf(steps, i - 1, kind);
      if Selects(step, kind) {
        assert PicksOf(steps, i, kind) == k + 1;
        CalmSelects(s, c, step, kind);
        assert IndexAfter(start, n, k + 1) == RoundRobinNext(IndexAfter(start, n, k), n);
        assert TimesPicked(start, n, k + 1, j) == TimesPicked(start, n, k, j) + if step.j == j then 1 else 0;
      } else {
        CalmElsewhere(s, c, step, kind);
        assert PicksOf(steps, i, kind) == k;
      }
    }
  }

  /** Round robin is fair in every such run: k selections in a group of n usable endpoints give each of
      them k/n connections rounded down or up. */
  lemma RunsAreFair(run: seq<State>, c: Config, steps: seq<Step>, kind: string, i: nat, j: nat)
    requires CalmRun(run, c, steps, kind, i) && Rotates(c.strategy)
    requires j < |Counts(run[0], kind)|
    ensures |Counts(run[i], kind)| == |Counts(run[0], kind)|
    ensures var n, k := |Counts(run[0], kind)|, PicksOf(steps, i, kind);
            var got := Counts(run[i], kind)[j] - Counts(run[0], kind)[j];
            k / n <= got <= k / n + if k % n == 0 then 0 else 1
  {
    RoundRobinInRuns(run, c, steps, kind, i, j);
    RoundRobinIsFair(IndexOf(run[0], kind), |Counts(run[0], kind)|, PicksOf(steps, i, kind), j);
  }
}
