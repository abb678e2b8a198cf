/** The load balancer itself: groups of endpoint objects, sessions and round robin indices, each locked
    section proved to be one step of the protocol. */
module LoadBalancers {
  import opened Collections
  import opened Messages
  import opened Selection
  import opened BalancerProtocol

  class Endpoint {
    const id: string
    const kind: string
    const weight: int
    const maxConnections: int
    var status: Status
    var connections: int
    var responseTime: int
    var errorRate: real

    constructor (e: EndpointData)
      ensures Data() == e
    {
      id, kind, weight, maxConnections := e.id, e.kind, e.weight, e.maxConnections;
      status, connections, responseTime, errorRate := e.status, e.connections, e.responseTime, e.errorRate;
    }

    function Data(): EndpointData
      reads this
    {
      EndpointData(id, kind, weight, maxConnections, status, connections, responseTime, errorRate)
    }

    method Release(responseTime: int, isError: bool)
      modifies this
      ensures Data() == Released(old(Data()), responseTime, isError)
    {
      hide Tenth;
      if connections > 0 {
        connections := connections - 1;
      }
      if responseTime > 0 {
        this.responseTime := if this.responseTime == 0 then responseTime
                             else Tenth(this.responseTime * 9 + responseTime);
      }
      errorRate := if isError then (errorRate * 9.0 + 1.0) / 10.0 else errorRate * 0.9;
    }
  }

  /** A list of endpoint objects carries a list of records. */
  ghost predicate Mirrors(eps: seq<Endpoint>, own: set<Endpoint>, es: seq<EndpointData>)
    reads own
  {
    && |eps| == |es|
    && forall i :: 0 <= i < |eps| ==> eps[i] in own && es[i] == eps[i].Data()
  }

  ghost function DataOf(s: seq<Endpoint>, own: set<Endpoint>): (r: seq<EndpointData>)
    requires forall i :: 0 <= i < |s| ==> s[i] in own
    reads own
    ensures Mirrors(s, own, r)
  {
    if s == [] then [] else DataOf(s[..|s| - 1], own) + [s[|s| - 1].Data()]
  }

  /** A list of endpoint objects carries the selected positions of a list of records. */
  ghost predicate Lists(eps: seq<Endpoint>, own: set<Endpoint>, es: seq<EndpointData>, ps: seq<nat>)
    reads own
  {
    && |eps| == |ps|
    && forall j :: 0 <= j < |eps| ==> eps[j] in own && ps[j] < |es| && es[ps[j]] == eps[j].Data()
  }

  datatype Scored = Scored(at: nat, score: real)

  ghost predicate Ascending(s: seq<Scored>) {
    forall p, q :: 0 <= p < q < |s| ==> s[p].score <= s[q].score
  }

  /** The first i are in place. */
  ghost predicate Placed(s: seq<Scored>, i: nat) {
    forall p, q :: 0 <= p < i && p < q < |s| ==> s[p].score <= s[q].score
  }

  /** Slot i is at most those after it, as far as j. */
  ghost predicate LeastUpTo(s: seq<Scored>, i: nat, j: nat) {
    i < j <= |s| && forall q :: i < q < j ==> s[i].score <= s[q].score
  }

  lemma PlacedMore(s: seq<Scored>, i: nat)
    requires Placed(s, i) && LeastUpTo(s, i, |s|)
    ensures Placed(s, i + 1)
  {
  }

  lemma SwapKeepsPlaced(s: seq<Scored>, i: nat, j: nat)
    requires Placed(s, i) && LeastUpTo(s, i, j) && j < |s| && s[i].score > s[j].score
    ensures var t := s[i := s[j]][j := s[i]];
            Placed(t, i) && LeastUpTo(t, i, j + 1) && multiset(t) == multiset(s)
  {
  }

  /** The exchange sort of the scores. */
  method SortScores(a: array<Scored>)
    modifies a
    ensures Ascending(a[..])
    ensures multiset(a[..]) == multiset(old(a[..]))
  {
    var i := 0;
    while i < a.Length
      invariant 0 <= i <= a.Length && Placed(a[..], i)
      invariant multiset(a[..]) == multiset(old(a[..]))
    {
      SortPass(a, i);
      PlacedMore(a[..], i);
      i := i + 1;
    }
  }

  /** The inner loop: slot i against every later one. */
  method SortPass(a: array<Scored>, i: nat)
    requires i < a.Length && Placed(a[..], i)
    modifies a
    ensures Placed(a[..], i) && LeastUpTo(a[..], i, a.Length)
    ensures multiset(a[..]) == multiset(old(a[..]))
  {
    var j := i + 1;
    while j < a.Length
      invariant i < j <= a.Length && Placed(a[..], i) && LeastUpTo(a[..], i, j)
      invariant multiset(a[..]) == multiset(old(a[..]))
    {
      ghost var s := a[..];
      if a[i].score > a[j].score {
        SwapKeepsPlaced(s, i, j);
        a[i], a[j] := a[j], a[i];
        assert a[..] == s[i := s[j]][j := s[i]];
      }
      j := j + 1;
    }
  }

  /** The first of the sorted scores is a best endpoint, the next one a best of the others. */
  lemma SortedIsBest(es: seq<EndpointData>, ps: seq<nat>, unsorted: seq<Scored>, sorted: seq<Scored>)
    requires forall j :: 0 <= j < |ps| ==> ps[j] < |es|
    requires |unsorted| == |ps| > 0
    requires forall j :: 0 <= j < |ps| ==> unsorted[j] == Scored(j, Score(es[ps[j]]))
    requires multiset(sorted) == multiset(unsorted) && Ascending(sorted)
    ensures |sorted| == |ps|
    ensures Best(es, ps, sorted[0].at)
    ensures |ps| > 1 ==> SecondBest(es, ps, sorted[1].at)
  {
    assert |sorted| == |multiset(sorted)| == |multiset(unsorted)|;
    forall q | 0 <= q < |sorted|
      ensures sorted[q].at < |ps| && sorted[q] == unsorted[sorted[q].at]
    {
      assert sorted[q] in multiset(unsorted);
    }
    forall i | 0 <= i < |ps|
      ensures exists q :: 0 <= q < |sorted| && sorted[q] == unsorted[i]
    {
      assert unsorted[i] in multiset(sorted);
    }
    assert Best(es, ps, sorted[0].at);
    if |ps| > 1 {
      if sorted[0] == sorted[1] {
        OccursTwice(sorted, 0, 1);
        OccursOnce(unsorted, sorted[0].at);
        assert false;
      }
      forall i | 0 <= i < |ps| && i != sorted[0].at
        ensures Score(es[ps[sorted[1].at]]) <= Score(es[ps[i]])
      {
        var q :| 0 <= q < |sorted| && sorted[q] == unsorted[i];
      }
    }
  }

  method LeastConnectionsSelect(eps: seq<Endpoint>, ghost own: set<Endpoint>, ghost es: seq<EndpointData>,
                                ghost ps: seq<nat>)
    returns (r: Option<nat>)
    requires Lists(eps, own, es, ps)
    ensures r == if eps == [] then None else Some(ScanLeast(Connections(es, ps)).1)
  {
    if |eps| == 0 {
      return None;
    }
    ghost var conns := Connections(es, ps);
    var least, at := -1, -1;
    var i := 0;
    while i < |eps|
      invariant 0 <= i <= |eps|
      invariant (least, at) == ScanLeast(conns[..i])
    {
      assert conns[..i + 1][..i] == conns[..i];
      if least == -1 || eps[i].connections < least {
        least, at := eps[i].connections, i;
      }
      i := i + 1;
    }
    assert conns[..i] == conns;
    r := Some(at);
  }

  method WeightedRandomSelect(eps: seq<Endpoint>, ghost own: set<Endpoint>, ghost es: seq<EndpointData>,
                              ghost ps: seq<nat>)
    returns (r: Option<nat>, ticket: int)
    requires Lists(eps, own, es, ps)
    ensures r.None? <==> eps == []
    ensures r.Some? ==> 1 <= ticket <= Total(Weights(es, ps)) && r.value == Land(Weights(es, ps), ticket, 0) < |eps|
  {
    if |eps| == 0 {
      return None, 0;
    }
    ghost var ws := Weights(es, ps);
    assert forall j :: 0 <= j < |eps| ==> ws[j] == eps[j].weight;
    assert ws[..0] == [] && Total(ws[..0]) == 0;
    hide Weights, Lists, Total, Effective;
    var total := 0;
    var i := 0;
    while i < |eps|
      invariant 0 <= i <= |eps|
      invariant total == Total(ws[..i])
    {
      TotalGrows(ws, i, i + 1);
      total := total + Effective(eps[i].weight);
      i := i + 1;
    }
    assert ws[..i] == ws;
    ticket :| 1 <= ticket <= total;
    var current := 0;
    i := 0;
    while i < |eps|
      invariant 0 <= i <= |eps|
      invariant current == Total(ws[..i])
      invariant Land(ws, ticket, 0) == Land(ws, ticket, i)
    {
      TotalGrows(ws, i, i + 1);
      current := current + Effective(eps[i].weight);
      if ticket <= current {
        return Some(i), ticket;
      }
      i := i + 1;
    }
    r := Some(0);
  }

  method AdaptiveLoadSelect(eps: seq<Endpoint>, chance: real,
                            ghost own: set<Endpoint>, ghost es: seq<EndpointData>, ghost ps: seq<nat>)
    returns (r: Option<nat>)
    requires Lists(eps, own, es, ps)
    ensures r.None? <==> eps == []
    ensures r.Some? ==> r.value < |ps|
    ensures r.Some? ==> if |ps| > 1 && chance < 0.1 then SecondBest(es, ps, r.value) else Best(es, ps, r.value)
  {
    if |eps| == 0 {
      return None;
    }
    var scores := new Scored[|eps|](_ => Scored(0, 0.0));
    var i := 0;
    while i < |eps|
      invariant 0 <= i <= |eps|
      invariant forall j :: 0 <= j < i ==> scores[j] == Scored(j, Score(es[ps[j]]))
    {
      scores[i] := Scored(i, Score(eps[i].Data()));
      i := i + 1;
    }
    ghost var unsorted := scores[..];
    SortScores(scores);
    SortedIsBest(es, ps, unsorted, scores[..]);
    if scores.Length > 1 && chance < 0.1 {
      return Some(scores[1].at);
    }
    r := Some(scores[0].at);
  }

  lemma UsableNext(es: seq<EndpointData>, i: nat)
    requires i < |es|
    ensures UsableAt(es[..i + 1]) == UsableAt(es[..i]) + if Usable(es[i].status) then [i] else []
  {
    assert es[..i + 1][..i] == es[..i];
  }

  method GetHealthyEndpoints(eps: seq<Endpoint>, ghost own: set<Endpoint>, ghost es: seq<EndpointData>)
    returns (healthy: seq<Endpoint>)
    requires Mirrors(eps, own, es)
    ensures Lists(healthy, own, es, UsableAt(es))
    ensures forall j :: 0 <= j < |healthy| ==> healthy[j] == eps[UsableAt(es)[j]] && Usable(healthy[j].status)
  {
    assert es[..0] == [] && UsableAt(es[..0]) == [];
    ghost var ps: seq<nat> := [];
    healthy := [];
    var i := 0;
    while i < |eps|
      invariant 0 <= i <= |eps|
      invariant ps == UsableAt(es[..i]) && |healthy| == |ps|
      invariant forall j :: 0 <= j < |ps| ==> ps[j] < i && healthy[j] == eps[ps[j]] && Usable(healthy[j].status)
    {
      UsableNext(es, i);
      if eps[i].status == Healthy || eps[i].status == Degraded {
        healthy, ps := healthy + [eps[i]], ps + [i];
      }
      i := i + 1;
    }
    assert es[..i] == es;
  }

  /** The endpoint type a message asks for; there may be no message. */
  function KindOf(metadata: Option<map<string, string>>): (kind: string)
    ensures kind != ""
  {
    if metadata.Some? && "model_type" in metadata.value && metadata.value["model_type"] != ""
    then metadata.value["model_type"]
    else "llm"
  }

  /** A message gets the type it names, and an llm endpoint if it names none. */
  lemma KindIsAsked(metadata: map<string, string>, kind: string)
    ensures KindOf(Some(metadata["model_type" := kind])) == if kind == "" then "llm" else kind
    ensures KindOf(Some(metadata - {"model_type"})) == "llm" == KindOf(None)
  {
  }

  datatype GetError = NoEndpoints | NoHealthyEndpoints

  datatype Outcome = Chosen(endpoint: Endpoint) | Failed(error: GetError)

  /** Every type once. */
  ghost predicate Walks<T>(order: seq<string>, g: Groups<T>) {
    && (forall kind :: kind in order <==> kind in g)
    && forall i, j :: 0 <= i < j < |order| ==> order[i] != order[j]
  }

  /** The groups one after the other. */
  function Joined<T>(g: Groups<T>, order: seq<string>): seq<T> {
    if order == [] then [] else
    var n := |order| - 1;
    Joined(g, order[..n]) + Members(g, order[n])
  }

  lemma {:induction false} JoinedMirrors(g: Groups<Endpoint>, h: Groups<EndpointData>, order: seq<string>,
                                         own: set<Endpoint>)
    requires forall kind <- g :: kind in h && Mirrors(g[kind], own, h[kind])
    requires h.Keys == g.Keys
    ensures Mirrors(Joined(g, order), own, Joined(h, order))
  {
    if order != [] {
      JoinedMirrors(g, h, order[..|order| - 1], own);
    }
  }

  class LoadBalancer {
    const strategy: Strategy
    const affinity: bool
    const timeout: int
    var groups: Groups<Endpoint>
    var sessions: map<string, Session>
    var index: map<string, nat>
    ghost var own: set<Endpoint>

    ghost predicate Owned()
      reads `groups, `own
    {
      forall p | In(groups, p) :: Get(groups, p) in own
    }

    lemma GroupOwned(kind: string)
      requires Owned() && kind in groups
      ensures forall i :: 0 <= i < |groups[kind]| ==> groups[kind][i] in own
    {
      forall i | 0 <= i < |groups[kind]|
        ensures groups[kind][i] in own
      {
        assert In(groups, Place(kind, i)) && Get(groups, Place(kind, i)) in own;
      }
    }

    ghost function OwnedData(kind: string): (r: seq<EndpointData>)
      requires Owned() && kind in groups
      reads `groups, `own, own
      ensures Mirrors(groups[kind], own, r)
    {
      GroupOwned(kind);
      DataOf(groups[kind], own)
    }

    /** The groups as records. */
    ghost function Table(): (g: Groups<EndpointData>)
      requires Owned()
      reads `groups, `own, own
      ensures g.Keys == groups.Keys
      ensures forall p :: In(g, p) <==> In(groups, p)
      ensures forall p | In(g, p) :: Get(g, p) == Get(groups, p).Data()
    {
      assert forall k <- groups :: Mirrors(groups[k], own, OwnedData(k));
      map k | k in groups :: OwnedData(k)
    }

    lemma GroupAt(kind: string)
      requires Owned() && kind in groups
      ensures Mirrors(groups[kind], own, Table()[kind])
    {
      GroupOwned(kind);
    }

    ghost function View(): State
      requires Owned()
      reads this, own
    {
      State(Table(), sessions, index)
    }

    ghost predicate Valid()
      reads `groups, `own, own
    {
      Owned() && GroupsOk(Table())
    }

    constructor (strategy: Strategy, affinity: bool, timeout: int)
      ensures Valid() && View() == EMPTY
      ensures this.strategy == strategy && this.affinity == affinity && this.timeout == timeout
    {
      this.strategy, this.affinity, this.timeout := strategy, affinity, timeout;
      groups, sessions, index, own := map[], map[], map[], {};
    }

    /** The scan over all groups for an id; the order in which a map is walked is unspecified. */
    method Find(id: string) returns (r: Option<Place>)
      requires Valid()
      ensures r == Locate(Table(), id)
    {
      var todo := groups.Keys;
      while todo != {}
        invariant todo <= groups.Keys
        invariant forall p | In(Table(), p) && p.kind !in todo :: Get(Table(), p).id != id
        decreases |todo|
      {
        var kind :| kind in todo;
        var i := 0;
        while i < |groups[kind]|
          invariant 0 <= i <= |groups[kind]|
          invariant forall j :: 0 <= j < i ==> groups[kind][j].id != id
        {
          if groups[kind][i].id == id {
            OfAt(Table(), Place(kind, i));
            return Some(Place(kind, i));
          }
          i := i + 1;
        }
        todo := todo - {kind};
      }
      r := None;
    }

    /** All endpoints, group after group in whatever order the map is walked. */
    method GetAllEndpoints() returns (all: seq<Endpoint>)
      ensures exists order :: Walks(order, groups) && all == Joined(groups, order)
    {
      all := [];
      ghost var order: seq<string> := [];
      var todo := groups.Keys;
      while todo != {}
        invariant todo <= groups.Keys
        invariant forall kind :: kind in order <==> kind in groups && kind !in todo
        invariant forall i, j :: 0 <= i < j < |order| ==> order[i] != order[j]
        invariant all == Joined(groups, order)
        decreases |todo|
      {
        var kind :| kind in todo;
        assert (order + [kind])[..|order|] == order;
        all, order := all + groups[kind], order + [kind];
        todo := todo - {kind};
      }
      assert Walks(order, groups);
    }

    /** Changing one endpoint object in place changes one record of the table. */
    twostate lemma EditedAt(p: Place)
      requires old(Valid()) && groups == old(groups) && own == old(own) && In(groups, p)
      requires forall o <- own :: o != Get(groups, p) ==> unchanged(o)
      ensures Valid() && Table() == Put(old(Table()), p, Get(groups, p).Data())
    {
      hide Table;
      var e, g := Get(groups, p), old(Table());
      forall q | In(g, q) && q != p
        ensures Get(groups, q) != e
      {
        assert Get(g, q).id == Get(groups, q).id && Get(g, p).id == e.id;
      }
      PutKeeps(g, p, e.Data());
      hide GroupsOk;
      SameGroups(Table(), Put(g, p, e.Data()));
    }

    /** An endpoint object in no group does not show. */
    twostate lemma EditedElsewhere(e: Endpoint)
      requires old(Valid()) && groups == old(groups) && own == old(own)
      requires forall p | In(groups, p) :: Get(groups, p) != e
      requires forall o <- own :: o != e ==> unchanged(o)
      ensures Valid() && Table() == old(Table())
    {
      hide Table;
      hide GroupsOk;
      SameGroups(Table(), old(Table()));
    }

    /** An appended endpoint is an appended record. */
    twostate lemma AppendedTo(e: Endpoint)
      requires old(Valid()) && !Present(old(Table()), e.id)
      requires groups == Append(old(groups), e.kind, e) && own == old(own) + {e}
      requires e.Data() == Welcome(old(e.Data())) && forall o <- old(own) :: o != e ==> unchanged(o)
      ensures Valid() && Table() == Add(State(old(Table()), map[], map[]), old(e.Data())).groups
    {
      var g, h := old(Table()), Append(old(Table()), e.kind, e.Data());
      AddKeeps(State(g, map[], map[]), old(e.Data()));
      hide Table, Append;
      forall q | In(old(groups), q)
        ensures Get(old(groups), q) != e
      {
        assert !Holds(g, e.id, q);
      }
      hide GroupsOk, Locate;
      SameSizes(g, old(groups));
      forall q
        ensures In(h, q) <==> In(groups, q)
        ensures In(groups, q) ==> Get(groups, q) in own && Get(h, q) == Get(groups, q).Data()
      {
        AppendMeans(g, e.kind, e.Data(), q);
        AppendMeans(old(groups), e.kind, e, q);
      }
      AppendKinds(g, e.kind, e.Data());
      AppendKinds(old(groups), e.kind, e);
      SameGroups(Table(), h);
    }

    method AddEndpoint(e: Endpoint) returns (ok: bool)
      requires Valid()
      modifies this, e
      ensures Valid() && own <= old(own) + {e}
      ensures ok <==> !Present(old(Table()), e.id)
      ensures View() == Add(old(View()), old(e.Data()))
    {
      hide Table, GroupsOk, Locate;
      var found := Find(e.id);
      if found.Some? {
        return false;
      }
      if e.status == Unset {
        e.status := Healthy;
      }
      var group := if e.kind in groups then groups[e.kind] else [];
      groups, own := groups[e.kind := group + [e]], own + {e};
      AppendedTo(e);
      ok := true;
    }

    /** A dropped endpoint is a dropped record. */
    twostate lemma DroppedAt(p: Place)
      requires old(Valid()) && In(old(groups), p)
      requires groups == Drop(old(groups), p) && own == old(own)
      requires forall o <- own :: unchanged(o)
      ensures Valid() && Table() == Drop(old(Table()), p)
    {
      var g := old(Table());
      DropKeeps(g, p);
      hide Table, GroupsOk, Drop;
      forall q
        ensures In(Drop(g, p), q) <==> In(groups, q)
        ensures In(groups, q) ==> Get(groups, q) in own && Get(Drop(g, p), q) == Get(groups, q).Data()
      {
        DropMeans(g, p, q);
        DropMeans(old(groups), p, q);
      }
      SameSizes(g, old(groups));
      DropKinds(g, p);
      DropKinds(old(groups), p);
      SameGroups(Table(), Drop(g, p));
    }

    method RemoveEndpoint(id: string) returns (ok: bool)
      requires Valid()
      modifies this
      ensures Valid() && own == old(own)
      ensures ok <==> Present(old(Table()), id)
      ensures View() == Remove(old(View()), id)
    {
      hide Table, GroupsOk, Locate;
      var found := Find(id);
      if found.None? {
        return false;
      }
      var p := found.value;
      var rest := groups[p.kind][..p.at] + groups[p.kind][p.at + 1..];
      if |rest| == 0 {
        groups := groups - {p.kind};
      } else {
        groups := groups[p.kind := rest];
      }
      sessions := map sid | sid in sessions && sessions[sid].endpointId != id :: sessions[sid];
      DroppedAt(p);
      ok := true;
    }

    method UpdateEndpointStatus(id: string, status: Status) returns (ok: bool)
      requires Valid()
      modifies own
      ensures Valid()
      ensures ok <==> Present(old(Table()), id)
      ensures View() == SetStatus(old(View()), id, status)
    {
      hide Table, GroupsOk, Locate;
      var found := Find(id);
      if found.None? {
        return false;
      }
      var e := Get(groups, found.value);
      e.status := status;
      EditedAt(found.value);
      ok := true;
    }

    method ReleaseEndpoint(id: string, responseTime: int, isError: bool)
      requires Valid()
      modifies own
      ensures Valid() && View() == Release(old(View()), id, responseTime, isError)
    {
      hide Table, GroupsOk, Locate, Released;
      var found := Find(id);
      if found.None? {
        return;
      }
      var e := Get(groups, found.value);
      e.Release(responseTime, isError);
      EditedAt(found.value);
    }

    /** The health check holds the endpoint object, which may have been removed meanwhile. */
    method CheckEndpointHealth(e: Endpoint)
      requires Valid()
      modifies e
      ensures Valid()
      ensures e.Data() == if old(e.status) == Unhealthy then old(e.Data()).(status := Degraded) else old(e.Data())
      ensures View() == if exists p :: In(groups, p) && Get(groups, p) == e
                        then Check(old(View()), e.id) else old(View())
    {
      hide Table, GroupsOk, Locate;
      ghost var g := Table();
      ghost var listed := exists p :: In(groups, p) && Get(groups, p) == e;
      ghost var p := Place("", 0);
      if listed {
        p :| In(groups, p) && Get(groups, p) == e;
        OfAt(g, p);
      }
      if e.status == Unhealthy {
        e.status := Degraded;
        if listed {
          EditedAt(p);
        } else {
          EditedElsewhere(e);
        }
      }
    }

    method GetSessionEndpoint(sid: string, now: int) returns (r: Option<Endpoint>)
      requires Valid()
      modifies `sessions
      ensures Valid()
      ensures (View(), if r.None? then None else Some(r.value.id)) == Lookup(old(View()), sid, now, timeout)
      ensures r.Some? ==> r.value in own && Usable(r.value.status)
    {
      hide Table, GroupsOk, Locate;
      if sid !in sessions {
        assert sessions - {sid} == sessions;
        return None;
      }
      var session := sessions[sid];
      if timeout > 0 && now - session.lastUsed > timeout {
        sessions := sessions - {sid};
        return None;
      }
      var found := Find(session.endpointId);
      if found.Some? {
        var e := Get(groups, found.value);
        if e.status == Healthy || e.status == Degraded {
          sessions := sessions[sid := session.(lastUsed := now)];
          return Some(e);
        }
        sessions := sessions - {sid};
        return None;
      }
      sessions := sessions - {sid};
      r := None;
    }

    method SaveSession(sid: string, eid: string, now: int)
      requires Valid()
      modifies `sessions
      ensures Valid() && View() == Save(old(View()), sid, eid, now)
    {
      hide Valid, Owned, Table;
      if sid !in sessions {
        sessions := sessions[sid := Session(eid, now, now)];
      } else {
        sessions := sessions[sid := sessions[sid].(endpointId := eid, lastUsed := now)];
      }
    }

    /** Deletes the expired sessions one at a time, in whatever order the map is walked. */
    method CleanupExpiredSessions(now: int)
      requires Valid()
      modifies `sessions
      ensures Valid() && View() == Cleanup(old(View()), now, timeout)
    {
      ghost var before := sessions;
      hide Owned, Table, GroupsOk;
      var todo := sessions.Keys;
      while todo != {}
        invariant todo <= before.Keys && sessions.Keys <= before.Keys
        invariant forall sid <- before ::
            sid in sessions <==> sid in todo || !(now - before[sid].lastUsed > timeout)
        invariant forall sid <- sessions :: sessions[sid] == before[sid]
        invariant Valid() && Table() == old(Table())
        decreases |todo|
      {
        var sid :| sid in todo;
        if now - sessions[sid].lastUsed > timeout {
          sessions := sessions - {sid};
        }
        todo := todo - {sid};
      }
    }

    method ClearSessions()
      requires Valid()
      modifies `sessions
      ensures Valid() && View() == old(View()).(sessions := map[])
    {
      hide Owned, Table, GroupsOk;
      sessions := map[];
    }

    /** Only called with the usable endpoints of the type. */
    method RoundRobinSelect(kind: string, n: nat) returns (r: Option<nat>)
      modifies `index
      ensures n == 0 ==> r.None? && index == old(index)
      ensures n > 0 ==> var current := if kind in old(index) then old(index)[kind] else 0;
                        && r == Some(RoundRobinPick(current, n))
                        && index == old(index)[kind := RoundRobinNext(current, n)]
    {
      if n == 0 {
        return None;
      }
      var current := if kind in index then index[kind] else 0;
      r := Some(current % n);
      index := index[kind := (current + 1) % n];
    }

    /** The strategy's choice among the usable endpoints; only round robin touches the index. */
    method Choose(kind: string, healthy: seq<Endpoint>, chance: real, ghost es: seq<EndpointData>)
      returns (j: nat, ticket: int)
      requires healthy != [] && Lists(healthy, own, es, UsableAt(es))
      modifies `index
      ensures j < |healthy| && index == IndexAfterPick(old(index), kind, strategy, |healthy|)
      ensures ChoosesFrom(es, if kind in old(index) then old(index)[kind] else 0, strategy, ticket, chance, j)
    {
      ghost var ps := UsableAt(es);
      assert |healthy| == |ps|;
      hide UsableAt, Lists, Connections, Weights, ScanLeast, Land, Total, Best, SecondBest;
      var selected: Option<nat>;
      ticket := 0;
      match strategy {
        case LeastConnections => selected := LeastConnectionsSelect(healthy, own, es, ps);
        case WeightedRandom => selected, ticket := WeightedRandomSelect(healthy, own, es, ps);
        case AdaptiveLoad => selected := AdaptiveLoadSelect(healthy, chance, own, es, ps);
        case _ => selected := RoundRobinSelect(kind, |healthy|);
      }
      j := selected.value;
    }

    method Connect(e: Endpoint, ghost p: Place)
      requires Valid() && In(groups, p) && Get(groups, p) == e
      modifies own
      ensures Valid() && e.status == old(e.status)
      ensures Table() == Put(old(Table()), p, old(e.Data()).(connections := old(e.connections) + 1))
    {
      hide Table, GroupsOk;
      e.connections := e.connections + 1;
      EditedAt(p);
    }

    /** The locked section of a selection; ticket and chance are the draws it made.  A failure returns with
        the mutex still held. */
    method SelectEndpoint(kind: string, chance: real) returns (r: Outcome, held: bool, ticket: int, ghost j: nat)
      requires Valid()
      modifies this`index, own
      ensures Valid() && (held <==> r.Failed?)
      ensures r.Failed? <==> UsableAt(Members(old(Table()), kind)) == []
      ensures r.Failed? ==> View() == old(View())
      ensures r.Failed? ==> r.error == if kind in old(Table()) then NoHealthyEndpoints else NoEndpoints
      ensures r.Chosen? ==> && Chooses(old(View()), kind, strategy, ticket, chance, j)
                            && View() == Pick(old(View()), kind, strategy, j)
                            && r.endpoint.id == Picked(old(View()), kind, j)
                            && r.endpoint in own && Usable(r.endpoint.status)
    {
      held, ticket, j := false, 0, 0;
      var none: seq<EndpointData> := [];
      assert UsableAt(none) == [];
      hide Table, Locate, Chooses, Pick, Picked, UsableAt;
      if kind in groups {
        GroupAt(kind);
      }
      if kind !in groups || |groups[kind]| == 0 {
        return Failed(NoEndpoints), true, ticket, j;
      }
      hide GroupsOk;
      ghost var before, es := View(), Table()[kind];
      var healthy := GetHealthyEndpoints(groups[kind], own, es);
      if |healthy| == 0 {
        return Failed(NoHealthyEndpoints), true, ticket, j;
      }
      r, ticket, j := SelectAmong(kind, healthy, chance, before, es);
    }

    /** The second half of the section, once the usable endpoints are known. */
    method SelectAmong(kind: string, healthy: seq<Endpoint>, chance: real, ghost before: State,
                       ghost es: seq<EndpointData>)
      returns (r: Outcome, ticket: int, ghost j: nat)
      requires Valid() && before == View() && es == Members(before.groups, kind)
      requires healthy != [] && Lists(healthy, own, es, UsableAt(es))
      requires forall i :: 0 <= i < |healthy| ==> In(groups, Place(kind, UsableAt(es)[i]))
                                                  && healthy[i] == Get(groups, Place(kind, UsableAt(es)[i]))
                                                  && Usable(healthy[i].status)
      modifies this`index, own
      ensures Valid() && r.Chosen?
      ensures Chooses(before, kind, strategy, ticket, chance, j)
      ensures View() == Pick(before, kind, strategy, j)
      ensures r.endpoint.id == Picked(before, kind, j) && r.endpoint in own && Usable(r.endpoint.status)
    {
      hide Table, GroupsOk, UsableAt, ChoosesFrom;
      var i;
      i, ticket := Choose(kind, healthy, chance, es);
      j := i;
      var e := healthy[i];
      Connect(e, Place(kind, UsableAt(es)[i]));
      r := Chosen(e);
    }

    /** A request: its session's endpoint if that can be honoured, otherwise a selection, remembered for
        the session.  The lock is free between the three sections, and held after a failure. */
    method GetEndpoint(metadata: Option<map<string, string>>, sid: string, now: int, later: int, chance: real)
      returns (r: Outcome, held: bool, ticket: int, ghost j: nat)
      requires Valid()
      modifies this`sessions, this`index, own
      ensures Valid() && (held <==> r.Failed?)
      ensures r.Chosen? ==> r.endpoint in own && Usable(r.endpoint.status)
      ensures var kind, asks := KindOf(metadata), affinity && sid != "";
              var (s, hit) := if asks then Lookup(old(View()), sid, now, timeout) else (old(View()), None);
              if hit.Some? then
                r.Chosen? && r.endpoint.id == hit.value && View() == s
              else if UsableAt(Members(s.groups, kind)) == [] then
                r == Failed(if kind in s.groups then NoHealthyEndpoints else NoEndpoints) && View() == s
              else
                && Chooses(s, kind, strategy, ticket, chance, j)
                && r.Chosen? && r.endpoint.id == Picked(s, kind, j)
                && View() == if asks then Save(Pick(s, kind, strategy, j), sid, Picked(s, kind, j), later)
                             else Pick(s, kind, strategy, j)
    {
      hide Table, GroupsOk, Lookup, Pick, Picked, UsableAt, ChoosesFrom;
      held, ticket, j := false, 0, 0;
      if affinity && sid != "" {
        var found := GetSessionEndpoint(sid, now);
        if found.Some? {
          return Chosen(found.value), held, ticket, j;
        }
      }
      r, held, ticket, j := SelectEndpoint(KindOf(metadata), chance);
      if r.Chosen? && affinity && sid != "" {
        SaveSession(sid, r.endpoint.id, later);
      }
    }
  }
}
