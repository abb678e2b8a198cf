/** The scaling loops of the scheduler: they add and remove numbered endpoints on the load balancer. */
module Autoscaler {
  import opened Messages
  import opened BalancerProtocol
  import opened LoadBalancers

  // ---------- names ----------

  const DIGITS: string := "0123456789"

  function Decimal(n: nat): (s: string)
    ensures s != []
  {
    if n < 10 then [DIGITS[n]] else Decimal(n / 10) + [DIGITS[n % 10]]
  }

  lemma {:induction false} DecimalIsInjective(m: nat, n: nat)
    requires Decimal(m) == Decimal(n)
    ensures m == n
  {
    var s, t := Decimal(m), Decimal(n);
    assert s[|s| - 1] == DIGITS[m % 10] && t[|t| - 1] == DIGITS[n % 10];
    assert m % 10 == n % 10;
    if m >= 10 && n >= 10 {
      assert s[..|s| - 1] == Decimal(m / 10) && t[..|t| - 1] == Decimal(n / 10);
      DecimalIsInjective(m / 10, n / 10);
    }
  }

  /** The number a string of digits stands for. */
  function Value(s: string): int {
    if s == [] then 0 else 10 * Value(s[..|s| - 1]) + (s[|s| - 1] as int - '0' as int)
  }

  /** The decimal form reads back as the number, and has no leading zero. */
  lemma {:induction false} DecimalReadsBack(n: nat)
    ensures Value(Decimal(n)) == n
    ensures forall i :: 0 <= i < |Decimal(n)| ==> '0' <= Decimal(n)[i] <= '9'
    ensures n > 0 ==> Decimal(n)[0] != '0'
  {
    DigitsAre(n % 10);
    var s := Decimal(n);
    if n < 10 {
      assert s[..0] == [];
    } else {
      DecimalReadsBack(n / 10);
      assert s[..|s| - 1] == Decimal(n / 10);
    }
  }

  lemma DigitsAre(d: nat)
    requires d < 10
    ensures DIGITS[d] as int == '0' as int + d
  {
  }

  const DYNAMIC: string := "endpoint-"
  const ADAPTIVE: string := "adaptive-endpoint-"

  function Name(prefix: string, n: nat): string {
    prefix + Decimal(n)
  }

  lemma NameIsInjective(prefix: string, m: nat, n: nat)
    requires Name(prefix, m) == Name(prefix, n)
    ensures m == n
  {
    assert Name(prefix, m)[|prefix|..] == Decimal(m) && Name(prefix, n)[|prefix|..] == Decimal(n);
    DecimalIsInjective(m, n);
  }

  function Fresh(prefix: string, n: nat): EndpointData {
    EndpointData(Name(prefix, n), "llm", 1, 100, Unset, 0, 0, 0.0)
  }

  // ---------- the endpoint list ----------

  /** The endpoints are exactly those numbered 1 to n, in order. */
  ghost predicate Numbered(g: Groups<EndpointData>, prefix: string, n: nat) {
    && GroupsOk(g) && g.Keys <= {"llm"} && |Members(g, "llm")| == n
    && forall i :: 0 <= i < n ==> Members(g, "llm")[i].id == Name(prefix, i + 1)
  }

  lemma NumberedAt(g: Groups<EndpointData>, prefix: string, n: nat, i: nat)
    requires Numbered(g, prefix, n) && 1 <= i
    ensures Locate(g, Name(prefix, i)) == if i <= n then Some(Place("llm", i - 1)) else None
  {
    if i <= n {
      OfAt(g, Place("llm", i - 1));
    } else if Present(g, Name(prefix, i)) {
      var p := Locate(g, Name(prefix, i)).value;
      NameIsInjective(prefix, i, p.at + 1);
      assert false;
    }
  }

  /** The next number is free, so the endpoint is accepted. */
  lemma AddNext(s: State, prefix: string, n: nat)
    requires Numbered(s.groups, prefix, n)
    ensures !Present(s.groups, Name(prefix, n + 1))
    ensures Numbered(Add(s, Fresh(prefix, n + 1)).groups, prefix, n + 1)
  {
    NumberedAt(s.groups, prefix, n, n + 1);
    AddKeeps(s, Fresh(prefix, n + 1));
  }

  /** And it serves from then on, with the name, type, weight and room that scaling gives it. */
  lemma AddedServes(s: State, prefix: string, n: nat)
    requires Numbered(s.groups, prefix, n)
    ensures Of(Add(s, Fresh(prefix, n + 1)).groups, prefix + Decimal(n + 1))
            == Some(EndpointData(prefix + Decimal(n + 1), "llm", 1, 100, Healthy, 0, 0, 0.0))
  {
    NumberedAt(s.groups, prefix, n, n + 1);
    AddKeeps(s, Fresh(prefix, n + 1));
    hide Add, GroupsOk;
  }

  /** Concrete cases: what the endpoints are called. */
  lemma EndpointNames()
    ensures Name(DYNAMIC, 12) == "endpoint-12" && Name(ADAPTIVE, 7) == "adaptive-endpoint-7"
  {
    assert Decimal(12) == Decimal(1) + "2" && Decimal(1) == "1";
  }

  lemma RemoveLast(s: State, prefix: string, n: nat)
    requires Numbered(s.groups, prefix, n) && n > 0
    ensures Present(s.groups, Name(prefix, n))
    ensures Numbered(Remove(s, Name(prefix, n)).groups, prefix, n - 1)
  {
    NumberedAt(s.groups, prefix, n, n);
    var p := Place("llm", n - 1);
    DropKeeps(s.groups, p);
    var h := Drop(s.groups, p);
    assert Members(h, "llm") == Members(s.groups, "llm")[..n - 1];
  }

  lemma PutKeepsNumbers(g: Groups<EndpointData>, p: Place, e: EndpointData, prefix: string, n: nat)
    requires Numbered(g, prefix, n) && In(g, p) && e.id == Get(g, p).id && e.kind == Get(g, p).kind
    ensures Numbered(Put(g, p, e), prefix, n)
  {
    PutKeeps(g, p, e);
    hide GroupsOk;
  }

  /** Whatever else the balancer does between two ticks leaves the numbering alone. */
  lemma OtherStepsKeepNumbers(s: State, c: Config, step: Step, prefix: string, n: nat)
    requires Numbered(s.groups, prefix, n) && Enabled(s, c, step) && !step.DoAdd? && !step.DoRemove?
    ensures Numbered(Do(s, c, step).groups, prefix, n)
  {
    hide Numbered, Put, Locate;
    var g := s.groups;
    match step
    case DoPick(kind, _, _, j) =>
      var p := Place(kind, UsableAt(Members(g, kind))[j]);
      PutKeepsNumbers(g, p, Get(g, p).(connections := Get(g, p).connections + 1), prefix, n);
    case DoSetStatus(id, status) =>
      if Locate(g, id).Some? {
        var p := Locate(g, id).value;
        PutKeepsNumbers(g, p, Get(g, p).(status := status), prefix, n);
      }
    case DoCheck(id) =>
      if Locate(g, id).Some? {
        var p := Locate(g, id).value;
        PutKeepsNumbers(g, p, Get(g, p).(status := Degraded), prefix, n);
      }
    case DoRelease(id, rt, err) =>
      if Locate(g, id).Some? {
        var p := Locate(g, id).value;
        PutKeepsNumbers(g, p, Released(Get(g, p), rt, err), prefix, n);
      }
    case _ =>
  }

  // ---------- what a tick sees ----------

  function Names(prefix: string, n: nat): (r: seq<string>)
    ensures |r| == n && forall i :: 0 <= i < n ==> r[i] == Name(prefix, i + 1)
  {
    seq(n, i requires 0 <= i < n => Name(prefix, i + 1))
  }

  function Ids(es: seq<EndpointData>): (r: seq<string>)
    ensures |r| == |es| && forall i :: 0 <= i < |es| ==> r[i] == es[i].id
  {
    seq(|es|, i requires 0 <= i < |es| => es[i].id)
  }

  /** The ids of all endpoints, group after group in some order. */
  ghost predicate Enumerates(ids: seq<string>, g: Groups<EndpointData>) {
    exists order :: Walks(order, g) && ids == Ids(Joined(g, order))
  }

  lemma OneGroup<T>(g: Groups<T>, kind: string, order: seq<string>)
    requires g.Keys <= {kind} && Walks(order, g)
    ensures Joined(g, order) == Members(g, kind)
  {
    assert forall i :: 0 <= i < |order| ==> order[i] in g.Keys;
    if order == [] {
      assert kind !in g;
    } else {
      assert order[0] == kind && order[|order| - 1] == kind;
      assert order == [kind] && [kind][..0] == [];
    }
  }

  /** The endpoints numbered 1 to n are listed in that order. */
  lemma NumberedLists(g: Groups<EndpointData>, prefix: string, n: nat, ids: seq<string>)
    requires Numbered(g, prefix, n) && Enumerates(ids, g)
    ensures ids == Names(prefix, n)
  {
    hide GroupsOk, Walks, Joined;
    var order :| Walks(order, g) && ids == Ids(Joined(g, order));
    OneGroup(g, "llm", order);
  }

  // ---------- scaling ----------

  datatype Limits = Limits(min: int, max: int, up: int, down: int)

  /** What a tick leaves behind; indexing the endpoint list below zero stops the scheduler. */
  datatype Outcome = Done(state: State) | OutOfRange

  /** Dynamic scaling of n endpoints. */
  function DynamicCount(n: nat, pending: int, l: Limits): int {
    if pending > l.up && n < l.max then n + 1
    else if pending < l.down && n > l.min then n - 1
    else n
  }

  /** A tick that finds the endpoints listed by these ids. */
  ghost function DynamicTick(s: State, ids: seq<string>, pending: int, l: Limits): Outcome {
    var n, m := |ids|, DynamicCount(|ids|, pending, l);
    if m < 0 then OutOfRange
    else if m > n then Done(Add(s, Fresh(DYNAMIC, m)))
    else if m < n then Done(Remove(s, ids[n - 1]))
    else Done(s)
  }

  /** One tick moves by at most one, never above the maximum unless already there, never below the
      minimum once it has been reached; it goes out of range only from no endpoints with a negative
      minimum. */
  lemma DynamicStaysInLimits(n: nat, pending: int, l: Limits)
    ensures var m := DynamicCount(n, pending, l);
            && n - 1 <= m <= n + 1
            && (n <= l.max ==> m <= l.max)
            && (n >= l.min ==> m >= l.min)
            && (m < 0 <==> n == 0 && l.min < 0 && pending < l.down && !(pending > l.up && l.max > 0))
  {
  }

  lemma DynamicKeepsNumbers(s: State, n: nat, pending: int, l: Limits)
    requires Numbered(s.groups, DYNAMIC, n)
    ensures var m := DynamicCount(n, pending, l);
            var t := DynamicTick(s, Names(DYNAMIC, n), pending, l);
            if m < 0 then t == OutOfRange else t.Done? && Numbered(t.state.groups, DYNAMIC, m)
  {
    AddNext(s, DYNAMIC, n);
    if n > 0 {
      RemoveLast(s, DYNAMIC, n);
    }
    hide Add, Remove, Numbered;
  }

  /** Where adaptive scaling wants to be. */
  function Target(businessHours: bool, pending: int, l: Limits): int {
    if businessHours then if pending > l.up then l.max else l.max - 1
    else if pending < l.down then l.min else l.min + 1
  }

  ghost function AddUpTo(s: State, n: nat, target: int): State
    decreases target - n
  {
    if n >= target then s else AddUpTo(Add(s, Fresh(ADAPTIVE, n + 1)), n + 1, target)
  }

  ghost function RemoveDownTo(s: State, ids: seq<string>, target: nat): State
    decreases |ids|
  {
    var n := |ids|;
    if n <= target then s else RemoveDownTo(Remove(s, ids[n - 1]), ids[..n - 1], target)
  }

  function Floor(target: int): nat {
    if target < 0 then 0 else target
  }

  /** The numbers after the last added up to the target, or the last of the list removed, at worst all. */
  ghost function Scaled(s: State, ids: seq<string>, target: int): State {
    if target > |ids| then AddUpTo(s, |ids|, target) else RemoveDownTo(s, ids, Floor(target))
  }

  ghost function AdaptiveTick(s: State, ids: seq<string>, target: int): Outcome {
    if target < 0 then OutOfRange else Done(Scaled(s, ids, target))
  }

  lemma {:induction false} AddUpToNumbers(s: State, n: nat, target: nat)
    requires Numbered(s.groups, ADAPTIVE, n) && n <= target
    ensures Numbered(AddUpTo(s, n, target).groups, ADAPTIVE, target)
    decreases target - n
  {
    if n < target {
      AddNext(s, ADAPTIVE, n);
      AddUpToNumbers(Add(s, Fresh(ADAPTIVE, n + 1)), n + 1, target);
    }
  }

  lemma {:induction false} RemoveDownToNumbers(s: State, n: nat, target: nat)
    requires Numbered(s.groups, ADAPTIVE, n) && target <= n
    ensures Numbered(RemoveDownTo(s, Names(ADAPTIVE, n), target).groups, ADAPTIVE, target)
    decreases n
  {
    if target < n {
      RemoveLast(s, ADAPTIVE, n);
      assert Names(ADAPTIVE, n)[..n - 1] == Names(ADAPTIVE, n - 1);
      RemoveDownToNumbers(Remove(s, Name(ADAPTIVE, n)), n - 1, target);
    }
  }

  /** One adaptive tick lands on the target, from however many endpoints; it goes out of range exactly
      when the target is negative, and with min < max the target is within the limits. */
  lemma AdaptiveLandsOnTarget(s: State, n: nat, businessHours: bool, pending: int, l: Limits)
    requires Numbered(s.groups, ADAPTIVE, n)
    ensures var target := Target(businessHours, pending, l);
            var t := AdaptiveTick(s, Names(ADAPTIVE, n), target);
            && (t.OutOfRange? <==> target < 0)
            && (t.Done? ==> Numbered(t.state.groups, ADAPTIVE, target))
            && (l.min < l.max ==> l.min <= target <= l.max)
  {
    var target := Target(businessHours, pending, l);
    if target > n {
      AddUpToNumbers(s, n, target);
    } else if target >= 0 {
      RemoveDownToNumbers(s, n, target);
    }
  }

  /** With the limits left unset, adaptive scaling in business hours goes out of range unless more is
      pending than the threshold for scaling up. */
  lemma UnsetLimitsGoOutOfRange(s: State, ids: seq<string>, pending: int, up: int, down: int)
    ensures AdaptiveTick(s, ids, Target(true, pending, Limits(0, 0, up, down))) == OutOfRange <==> pending <= up
  {
  }

  // ---------- runs ----------

  /** What is left of a tick after it has listed the endpoints: each addition and removal is a locked section
      of its own.  A removal planned from an empty list is out of range. */
  datatype Plan =
    | Rest
    | Adding(next: nat, target: int)
    | Removing(ids: seq<string>, target: int)

  datatype Shared = Shared(s: State, plan: Plan)

  function PlanFor(ids: seq<string>, m: int): Plan {
    if m > |ids| then Adding(|ids| + 1, m) else if m < |ids| then Removing(ids, m) else Rest
  }

  function Wanted(adaptive: bool, n: nat, businessHours: bool, pending: int, l: Limits): int {
    if adaptive then Target(businessHours, pending, l) else DynamicCount(n, pending, l)
  }

  function Prefix(adaptive: bool): string {
    if adaptive then ADAPTIVE else DYNAMIC
  }

  /** One planned addition or removal. */
  ghost function Proceed(w: Shared, prefix: string): Shared
    requires w.plan.Adding? || (w.plan.Removing? && w.plan.ids != [])
  {
    match w.plan
    case Adding(next, target) =>
      Shared(Add(w.s, Fresh(prefix, next)), if next < target then Adding(next + 1, target) else Rest)
    case Removing(ids, target) =>
      var n := |ids| - 1;
      Shared(Remove(w.s, ids[n]), if n > target then Removing(ids[..n], target) else Rest)
  }

  /** The scheduler lists the endpoints and decides, or proceeds with its plan, or the balancer takes any step
      that is not itself a scaling. */
  datatype Event = Look(businessHours: bool, pending: int, ids: seq<string>) | Go | Other(step: Step)

  ghost predicate Happens(w: Shared, c: Config, l: Limits, adaptive: bool, e: Event, w': Shared) {
    match e
    case Look(hours, pending, ids) =>
      && w.plan.Rest? && Enumerates(ids, w.s.groups)
      && w' == w.(plan := PlanFor(ids, Wanted(adaptive, |ids|, hours, pending, l)))
    case Go =>
      && (w.plan.Adding? || (w.plan.Removing? && w.plan.ids != []))
      && w' == Proceed(w, Prefix(adaptive))
    case Other(step) =>
      && Enabled(w.s, c, step) && !step.DoAdd? && !step.DoRemove?
      && w' == w.(s := Do(w.s, c, step))
  }

  ghost predicate IsScaling(run: seq<Shared>, c: Config, l: Limits, adaptive: bool, events: seq<Event>) {
    && |run| == |events| + 1 && run[0] == Shared(EMPTY, Rest)
    && forall i :: 0 <= i < |events| ==> Happens(run[i], c, l, adaptive, events[i], run[i + 1])
  }

  /** How many endpoints there are of the type that scaling adds. */
  function Size(s: State): nat {
    |Members(s.groups, "llm")|
  }

  ghost predicate HasLimits(l: Limits, adaptive: bool) {
    l.max >= 0 && (adaptive ==> l.min < l.max)
  }

  /** The endpoints are those numbered 1 to n, and the plan goes on from there and stays in the limits. */
  ghost predicate InStep(w: Shared, l: Limits, adaptive: bool) {
    var n := Size(w.s);
    && Numbered(w.s.groups, Prefix(adaptive), n)
    && match w.plan
       case Rest => true
       case Adding(next, target) => next == n + 1 <= target && (HasLimits(l, adaptive) ==> target <= l.max)
       case Removing(ids, target) =>
         ids == Names(Prefix(adaptive), n) && target < n && (HasLimits(l, adaptive) ==> target >= l.min)
  }

  lemma NumberedSize(s: State, prefix: string, n: nat)
    requires Numbered(s.groups, prefix, n)
    ensures Size(s) == n
  {
  }

  lemma LookInStep(w: Shared, c: Config, l: Limits, adaptive: bool, e: Event, w': Shared)
    requires InStep(w, l, adaptive) && e.Look? && Happens(w, c, l, adaptive, e, w')
    ensures InStep(w', l, adaptive) && Size(w'.s) == Size(w.s)
  {
    hide Numbered, Enumerates;
    NumberedLists(w.s.groups, Prefix(adaptive), Size(w.s), e.ids);
  }

  lemma GoInStep(w: Shared, c: Config, l: Limits, adaptive: bool, w': Shared)
    requires InStep(w, l, adaptive) && Happens(w, c, l, adaptive, Go, w')
    ensures InStep(w', l, adaptive)
    ensures Size(w'.s) == if w.plan.Adding? then Size(w.s) + 1 else Size(w.s) - 1
  {
    var prefix, n := Prefix(adaptive), Size(w.s);
    hide Numbered, Add, Remove, Prefix, Size;
    match w.plan
    case Adding(next, target) =>
      AddNext(w.s, prefix, n);
      NumberedSize(w'.s, prefix, n + 1);
    case Removing(ids, target) =>
      RemoveLast(w.s, prefix, n);
      NumberedSize(w'.s, prefix, n - 1);
      assert Names(prefix, n)[..n - 1] == Names(prefix, n - 1);
  }

  lemma OtherInStep(w: Shared, c: Config, l: Limits, adaptive: bool, step: Step, w': Shared)
    requires InStep(w, l, adaptive) && Happens(w, c, l, adaptive, Event.Other(step), w')
    ensures InStep(w', l, adaptive) && Size(w'.s) == Size(w.s)
  {
    OtherStepsKeepNumbers(w.s, c, step, Prefix(adaptive), Size(w.s));
    hide Numbered, Do, Enabled, Prefix, Size;
    NumberedSize(w'.s, Prefix(adaptive), Size(w.s));
  }

  lemma StaysInStep(w: Shared, c: Config, l: Limits, adaptive: bool, e: Event, w': Shared)
    requires InStep(w, l, adaptive) && Happens(w, c, l, adaptive, e, w')
    ensures InStep(w', l, adaptive)
    ensures HasLimits(l, adaptive) && Size(w.s) <= l.max ==> Size(w'.s) <= l.max
    ensures HasLimits(l, adaptive) && Size(w.s) >= l.min ==> Size(w'.s) >= l.min
  {
    hide Numbered, Size, Do, Enabled;
    match e
    case Look(_, _, _) => LookInStep(w, c, l, adaptive, e, w');
    case Go => GoInStep(w, c, l, adaptive, w');
    case Other(step) => OtherInStep(w, c, l, adaptive, step, w');
  }

  /** From no endpoints, under one strategy, with listings, single additions and removals and any other
      balancer steps interleaved: the endpoints are at every moment those numbered 1 to n, so the next one to
      add is always accepted; the plan goes on from there; and the limits hold. */
  lemma {:induction false} ScalingKeepsNumbers(run: seq<Shared>, c: Config, l: Limits, adaptive: bool,
                                              events: seq<Event>, i: nat)
    requires IsScaling(run, c, l, adaptive, events) && i < |run|
    ensures InStep(run[i], l, adaptive)
    ensures !Present(run[i].s.groups, Name(Prefix(adaptive), Size(run[i].s) + 1))
    ensures HasLimits(l, adaptive) ==> Size(run[i].s) <= l.max
    ensures HasLimits(l, adaptive) && i > 0 && Size(run[i - 1].s) >= l.min ==> Size(run[i].s) >= l.min
  {
    if i == 0 {
      assert Numbered(EMPTY.groups, Prefix(adaptive), 0);
    } else {
      hide InStep, Happens, Size, Present;
      ScalingKeepsNumbers(run, c, l, adaptive, events, i - 1);
      StaysInStep(run[i - 1], c, l, adaptive, events[i - 1], run[i]);
    }
    InStepIsNumbered(run[i], l, adaptive);
    hide Numbered, Present, Size;
    AddNext(run[i].s, Prefix(adaptive), Size(run[i].s));
  }

  lemma InStepIsNumbered(w: Shared, l: Limits, adaptive: bool)
    requires InStep(w, l, adaptive)
    ensures Numbered(w.s.groups, Prefix(adaptive), Size(w.s))
  {
  }

  // ---------- how many endpoints the load calls for ----------

  /** How many endpoints there are once the plan is carried out. */
  function Planned(w: Shared): int {
    match w.plan
    case Rest => Size(w.s)
    case Adding(_, target) => target
    case Removing(_, target) => target
  }

  lemma PlannedNext(w: Shared, c: Config, l: Limits, adaptive: bool, e: Event, w': Shared)
    requires InStep(w, l, adaptive) && Happens(w, c, l, adaptive, e, w')
    ensures !e.Look? ==> Planned(w') == Planned(w)
    ensures e.Look? ==> w.plan.Rest? && Planned(w') == Wanted(adaptive, Size(w.s), e.businessHours, e.pending, l)
  {
    hide Numbered, Size, Enumerates, Do, Enabled, Wanted;
    match e
    case Look(_, _, ids) =>
      InStepIsNumbered(w, l, adaptive);
      NumberedLists(w.s.groups, Prefix(adaptive), Size(w.s), ids);
    case Go => GoInStep(w, c, l, adaptive, w');
    case Other(step) => OtherInStep(w, c, l, adaptive, step, w');
  }

  /** How often the scheduler looked from event m to before event i. */
  function Looks(events: seq<Event>, m: nat, i: nat): nat
    requires m <= i <= |events|
  {
    if i == m then 0 else Looks(events, m, i - 1) + if events[i - 1].Look? then 1 else 0
  }

  /** The look finds too much pending. */
  predicate Surges(e: Event, l: Limits) {
    e.Look? && e.pending > l.up && e.pending >= l.down
  }

  /** It finds too little. */
  predicate Lulls(e: Event, l: Limits) {
    e.Look? && e.pending < l.down && e.pending <= l.up
  }

  /** Over any stretch of a run under dynamic scaling, with everything interleaved: k looks that each find more
      pending than the upper threshold, and no less than the lower, make n endpoints min(max, n + k); k that each
      find less than the lower one, and no more than the upper, make them max(min, n - k); and looks between the
      two leave them as they are. */
  lemma {:induction false} DynamicFollowsLoad(run: seq<Shared>, c: Config, l: Limits, events: seq<Event>, m: nat,
                                              i: nat)
    requires IsScaling(run, c, l, false, events) && m <= i < |run|
    ensures var n, k := Planned(run[m]), Looks(events, m, i);
            && (n <= l.max && (forall j :: m <= j < i && events[j].Look? ==> Surges(events[j], l)) ==>
                  Planned(run[i]) == if n + k <= l.max then n + k else l.max)
            && (n >= l.min && (forall j :: m <= j < i && events[j].Look? ==> Lulls(events[j], l)) ==>
                  Planned(run[i]) == if n - k >= l.min then n - k else l.min)
            && ((forall j :: m <= j < i && events[j].Look? ==> l.down <= events[j].pending <= l.up) ==>
                  Planned(run[i]) == n)
    ensures run[i].plan.Rest? ==> Planned(run[i]) == Size(run[i].s)
    decreases i
  {
    hide InStep, Happens, Size;
    if m < i {
      DynamicFollowsLoad(run, c, l, events, m, i - 1);
      ScalingKeepsNumbers(run, c, l, false, events, i - 1);
      PlannedNext(run[i - 1], c, l, false, events[i - 1], run[i]);
    }
  }

  /** Where the thresholds cross, what is over the upper one may be under the lower one: then a tick at the
      maximum takes an endpoint away. */
  lemma CrossedThresholds(pending: int, l: Limits)
    requires pending > l.up && l.max > l.min && l.max >= 0
    ensures DynamicCount(l.max, pending, l) == l.max <==> pending >= l.down
    ensures DynamicCount(l.max, pending, l) == l.max - 1 <==> pending < l.down
  {
  }

  /** Under adaptive scaling a look in business hours asks for the maximum if more is pending than the upper
      threshold and else for one less; at other times for the minimum if less is pending than the lower one and
      else for one more; and that is how many endpoints there are as soon as nothing is left of the plan. */
  lemma {:induction false} AdaptiveFollowsHours(run: seq<Shared>, c: Config, l: Limits, events: seq<Event>, j: nat,
                                                i: nat)
    requires IsScaling(run, c, l, true, events) && j < i < |run|
    requires events[j].Look? && Looks(events, j + 1, i) == 0
    ensures var Look(hours, pending, _) := events[j];
            && (hours && pending > l.up ==> Planned(run[i]) == l.max)
            && (hours && pending <= l.up ==> Planned(run[i]) == l.max - 1)
            && (!hours && pending < l.down ==> Planned(run[i]) == l.min)
            && (!hours && pending >= l.down ==> Planned(run[i]) == l.min + 1)
    ensures run[i].plan.Rest? ==> Size(run[i].s) == Planned(run[i])
    decreases i
  {
    hide InStep, Happens, Size;
    ScalingKeepsNumbers(run, c, l, true, events, i - 1);
    PlannedNext(run[i - 1], c, l, true, events[i - 1], run[i]);
    if j + 1 < i {
      AdaptiveFollowsHours(run, c, l, events, j, i - 1);
    }
  }

  /** A plan carried out with nothing in between. */
  ghost function Finish(w: Shared, prefix: string): Outcome
    decreases if w.plan.Adding? && w.plan.target >= w.plan.next then w.plan.target - w.plan.next + 1
              else if w.plan.Removing? then |w.plan.ids| + 1 else 0,
              if w.plan.Adding? then 1 else 0
  {
    if w.plan.Rest? then Done(w.s)
    else if w.plan.Removing? && w.plan.ids == [] then OutOfRange
    else Finish(Proceed(w, prefix), prefix)
  }

  lemma {:induction false} FinishAdds(s: State, n: nat, target: nat)
    requires n < target
    ensures Finish(Shared(s, Adding(n + 1, target)), ADAPTIVE) == Done(AddUpTo(s, n, target))
    decreases target - n
  {
    var t := Add(s, Fresh(ADAPTIVE, n + 1));
    if n + 1 < target {
      FinishAdds(t, n + 1, target);
    }
  }

  lemma {:induction false} FinishRemoves(s: State, ids: seq<string>, target: int)
    requires target < |ids|
    ensures Finish(Shared(s, Removing(ids, target)), ADAPTIVE)
            == if target < 0 then OutOfRange else Done(RemoveDownTo(s, ids, target))
    decreases |ids|
  {
    if ids != [] {
      var n := |ids| - 1;
      if n > target {
        FinishRemoves(Remove(s, ids[n]), ids[..n], target);
      }
    }
  }

  /** A tick with nothing in between its sections is a tick as a whole. */
  lemma TickUninterrupted(s: State, ids: seq<string>, businessHours: bool, pending: int, l: Limits)
    ensures Finish(Shared(s, PlanFor(ids, Wanted(true, |ids|, businessHours, pending, l))), ADAPTIVE)
            == AdaptiveTick(s, ids, Target(businessHours, pending, l))
    ensures Finish(Shared(s, PlanFor(ids, Wanted(false, |ids|, businessHours, pending, l))), DYNAMIC)
            == DynamicTick(s, ids, pending, l)
  {
    hide Add, Remove;
    var target := Target(businessHours, pending, l);
    if target > |ids| {
      FinishAdds(s, |ids|, target);
    } else if target < |ids| {
      FinishRemoves(s, ids, target);
    }
  }

  // ---------- the scheduler ----------

  datatype Scaling = Static | Dynamic | Adaptive | Hybrid | OtherScaling

  /** The sum over the queues, in whatever order the map is walked. */
  ghost function Sum(pending: map<string, int>): int {
    if pending == map[] then 0 else
    var k :| k in pending;
    pending[k] + Sum(pending - {k})
  }

  lemma {:induction false} SumAnyOrder(pending: map<string, int>, k: string)
    requires k in pending
    ensures Sum(pending) == pending[k] + Sum(pending - {k})
    decreases |pending|
  {
    var j :| j in pending && Sum(pending) == pending[j] + Sum(pending - {j});
    if j != k {
      SumAnyOrder(pending - {j}, k);
      SumAnyOrder(pending - {k}, j);
      assert pending - {j} - {k} == pending - {k} - {j};
    }
  }

  /** The four levels are among the queues whose counts are known. */
  predicate Reported(pending: map<string, int>) {
    "realtime" in pending && "high" in pending && "normal" in pending && "low" in pending
  }

  /** A concrete case: three of the four are not enough. */
  lemma LowIsMissing()
    ensures !Reported(map["realtime" := 0, "high" := 0, "normal" := 0])
  {
    assert "low"[0] == 'l' && "realtime"[0] == 'r' && "high"[0] == 'h' && "normal"[0] == 'n';
  }

  /** They are the names of the four priorities. */
  lemma ReportedIff(pending: map<string, int>)
    ensures Reported(pending) <==> forall p :: 1 <= p <= 4 ==> PriorityName(p) in pending
  {
    assert PriorityName(1) == "realtime" && PriorityName(2) == "high";
    assert PriorityName(3) == "normal" && PriorityName(4) == "low";
  }

  /** What is pending is the sum of the four counts when there are no other queues. */
  lemma SumOfFour(a: int, b: int, c: int, d: int)
    ensures Sum(map["realtime" := a, "high" := b, "normal" := c, "low" := d]) == a + b + c + d
  {
    assert "low"[0] == 'l' && "realtime"[0] == 'r' && "high"[0] == 'h' && "normal"[0] == 'n';
    var all := map["realtime" := a, "high" := b, "normal" := c, "low" := d];
    SumAnyOrder(all, "low");
    SumAnyOrder(all - {"low"}, "normal");
    SumAnyOrder(all - {"low"} - {"normal"}, "high");
    SumAnyOrder(all - {"low"} - {"normal"} - {"high"}, "realtime");
    assert all - {"low"} - {"normal"} - {"high"} - {"realtime"} == map[];
  }

  /** The scheduler did what the tick says. */
  predicate Ticked(tick: Outcome, before: State, ok: bool, after: State) {
    match tick
    case Done(t) => ok && after == t
    case OutOfRange => !ok && after == before
  }

  class Scheduler {
    const lb: LoadBalancer
    const scaling: Scaling
    const limits: Limits

    constructor (lb: LoadBalancer, scaling: Scaling, limits: Limits)
      ensures this.lb == lb && this.scaling == scaling && this.limits == limits
    {
      this.lb, this.scaling, this.limits := lb, scaling, limits;
    }

    static method TotalPending(pending: map<string, int>) returns (total: int)
      ensures total == Sum(pending)
    {
      total := 0;
      var rest := pending;
      while rest.Keys != {}
        invariant total + Sum(rest) == Sum(pending)
        decreases |rest|
      {
        var k :| k in rest.Keys;
        SumAnyOrder(rest, k);
        total := total + rest[k];
        rest := rest - {k};
      }
    }

    method AddNumbered(prefix: string, n: nat)
      requires lb.Valid()
      modifies lb
      ensures lb.Valid() && fresh(lb.own - old(lb.own))
      ensures lb.View() == Add(old(lb.View()), Fresh(prefix, n))
    {
      hide LoadBalancer.Table, GroupsOk, Add;
      var e := new Endpoint(Fresh(prefix, n));
      assert lb.View() == old(lb.View());
      var added := lb.AddEndpoint(e);
    }

    method ListEndpoints() returns (endpoints: seq<Endpoint>, ghost ids: seq<string>)
      requires lb.Valid()
      ensures Enumerates(ids, lb.Table()) && |endpoints| == |ids|
      ensures forall i :: 0 <= i < |ids| ==> endpoints[i].id == ids[i]
    {
      endpoints := lb.GetAllEndpoints();
      ghost var order :| Walks(order, lb.groups) && endpoints == Joined(lb.groups, order);
      ghost var table := lb.Table();
      forall kind <- lb.groups
        ensures Mirrors(lb.groups[kind], lb.own, table[kind])
      {
        lb.GroupAt(kind);
      }
      hide LoadBalancer.Table, GroupsOk, Joined, Walks;
      JoinedMirrors(lb.groups, table, order, lb.own);
      WalksSame(order, lb.groups, table);
      ids := Ids(Joined(table, order));
    }

    lemma WalksSame<T, U>(order: seq<string>, g: Groups<T>, h: Groups<U>)
      requires Walks(order, g) && g.Keys == h.Keys
      ensures Walks(order, h)
    {
      assert forall kind :: kind in g <==> kind in g.Keys;
      assert forall kind :: kind in h <==> kind in h.Keys;
    }

    /** Adds or removes at most one endpoint; false when the list is indexed below zero. */
    method ApplyDynamicScheduling(pending: map<string, int>) returns (ok: bool, ghost ids: seq<string>)
      requires lb.Valid()
      modifies lb
      ensures lb.Valid() && fresh(lb.own - old(lb.own))
      ensures Enumerates(ids, old(lb.Table()))
      ensures Ticked(DynamicTick(old(lb.View()), ids, Sum(pending), limits), old(lb.View()), ok, lb.View())
    {
      hide LoadBalancer.Table, GroupsOk, Enumerates, Add, Remove, Sum, Name, Fresh;
      var endpoints;
      endpoints, ids := ListEndpoints();
      var current := |endpoints|;
      var total := TotalPending(pending);
      ok := true;
      if total > limits.up && current < limits.max {
        AddNumbered(DYNAMIC, current + 1);
      } else if total < limits.down && current > limits.min {
        if current == 0 {
          return false, ids;
        }
        var removed := lb.RemoveEndpoint(endpoints[current - 1].id);
      }
    }

    /** Brings the number of endpoints to the target at once; false when the list is indexed below zero,
        after everything has been removed. */
    method ApplyAdaptiveScheduling(businessHours: bool, pending: map<string, int>)
      returns (ok: bool, ghost ids: seq<string>)
      requires lb.Valid()
      modifies lb
      ensures lb.Valid() && fresh(lb.own - old(lb.own))
      ensures Enumerates(ids, old(lb.Table()))
      ensures ok <==> Target(businessHours, Sum(pending), limits) >= 0
      ensures lb.View() == Scaled(old(lb.View()), ids, Target(businessHours, Sum(pending), limits))
    {
      hide LoadBalancer.Table, GroupsOk, Enumerates, Add, Remove, Sum, Name, Fresh;
      ghost var before := lb.View();
      var endpoints;
      endpoints, ids := ListEndpoints();
      var current := |endpoints|;
      var total := TotalPending(pending);
      var target := if businessHours then if total > limits.up then limits.max else limits.max - 1
                    else if total < limits.down then limits.min else limits.min + 1;
      ok := true;
      if target > current {
        var i := current;
        while i < target
          invariant current <= i <= target
          invariant lb.Valid() && fresh(lb.own - old(lb.own))
          invariant AddUpTo(before, current, target) == AddUpTo(lb.View(), i, target)
        {
          AddNumbered(ADAPTIVE, i + 1);
          i := i + 1;
        }
      } else if target < current {
        var i := current - 1;
        assert ids[..current] == ids;
        while i >= target
          invariant target - 1 <= i < current && i >= -1
          invariant lb.Valid() && lb.own == old(lb.own)
          invariant RemoveDownTo(before, ids, Floor(target)) == RemoveDownTo(lb.View(), ids[..i + 1], Floor(target))
        {
          if i < 0 {
            return false, ids;
          }
          assert ids[..i + 1][..i] == ids[..i];
          var removed := lb.RemoveEndpoint(endpoints[i].id);
          i := i - 1;
        }
      }
    }

    /** One monitoring tick; hybrid scaling scales like dynamic scaling, which is also the default.  The tick
        first writes the counts of the four levels to the log, which stops the program when one of them is
        missing. */
    method ScheduleResources(businessHours: bool, pending: map<string, int>) returns (ok: bool, ghost ids: seq<string>)
      requires lb.Valid()
      modifies lb
      ensures lb.Valid() && fresh(lb.own - old(lb.own))
      ensures !Reported(pending) ==> !ok && lb.View() == old(lb.View())
      ensures Reported(pending) && scaling == Static ==> ok && lb.View() == old(lb.View())
      ensures Reported(pending) && scaling == Adaptive ==>
                && Enumerates(ids, old(lb.Table()))
                && (ok <==> Target(businessHours, Sum(pending), limits) >= 0)
                && lb.View() == Scaled(old(lb.View()), ids, Target(businessHours, Sum(pending), limits))
      ensures Reported(pending) && scaling != Static && scaling != Adaptive ==>
                && Enumerates(ids, old(lb.Table()))
                && Ticked(DynamicTick(old(lb.View()), ids, Sum(pending), limits), old(lb.View()), ok, lb.View())
    {
      hide LoadBalancer.Table, GroupsOk, Enumerates, Scaled, Target, DynamicTick, Ticked;
      ids := [];
      if !Reported(pending) {
        return false, ids;
      }
      match scaling {
        case Static => ok := true;
        case Adaptive => ok, ids := ApplyAdaptiveScheduling(businessHours, pending);
        case _ => ok, ids := ApplyDynamicScheduling(pending);
      }
    }
  }
}
