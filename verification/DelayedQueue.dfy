/** DelayedQueue: a heap ordered by ReadyAt, and the timer loop that empties it. */
module DelayedQueues {
  import opened BinaryHeap
  import opened Messages

  /** A delayed item: its rank is (ReadyAt, 0), so the heap compares ReadyAt alone. */
  function Delayed<M>(m: M, readyAt: int): Entry<M> {
    Entry(m, Rank(readyAt, 0))
  }

  function ReadyAt<M>(e: Entry<M>): int {
    e.rank.major
  }

  // ---------- the critical sections, on values ----------

  /** The top of the loop: the cached item is replaced when there is none, or when the heap has an
      earlier one.  It may have left the heap meanwhile. */
  function Refresh<M>(heap: seq<Entry<M>>, next: Option<Entry<M>>): Option<Entry<M>> {
    if heap != [] && (next.None? || ReadyAt(heap[0]) < ReadyAt(next.value)) then Some(heap[0]) else next
  }

  /** Pop the earliest item if it is due within a millisecond. */
  function PopReady<M>(heap: seq<Entry<M>>, now: int): (Option<Entry<M>>, seq<Entry<M>>) {
    if heap != [] && ReadyAt(heap[0]) < now + MILLISECOND then
      var (e, rest) := HeapPop(heap);
      (Some(e), rest)
    else (None, heap)
  }

  /** The moment the timer is set for; None when the cached item is due already. */
  function Deadline<M>(next: Option<Entry<M>>, now: int): Option<int> {
    match next
    case None => Some(now + DAY)
    case Some(e) => if now >= ReadyAt(e) then None else Some(ReadyAt(e))
  }

  // ---------- the loop as a step relation ----------

  type Id = nat

  /** Where the run loop is.  since is the clock reading the wait was computed from. */
  datatype Phase =
    | Top
    | Refreshed
    | Due(since: int)
    | Waiting(since: int, until: int)
    | Sending
    | Stopped

  datatype Release = Release(e: Entry<Id>, at: int, left: seq<Entry<Id>>)

  datatype State = State(heap: seq<Entry<Id>>, next: Option<Entry<Id>>, phase: Phase, clock: int,
                         scheduled: multiset<Entry<Id>>, cleared: multiset<Entry<Id>>, released: seq<Release>)

  datatype Step =
    | Elapse(d: nat)                     // time passes
    | Clear                              // another goroutine clears the queue
    | LookAtHeap                         // the locked refresh at the top of the loop
    | ChooseWait                         // the clock is read and the wait computed
    | TryDue                             // the locked check of an item that is due
    | Receive(id: Id, readyAt: int)      // an item arrives on the push channel
    | Fire                               // the timer goes off
    | Deliver                            // the message has been handed over
    | Quit

  predicate Enabled(s: State, step: Step) {
    match step
    case Elapse(_) => true
    case Clear => true
    case LookAtHeap => s.phase.Top?
    case ChooseWait => s.phase.Refreshed?
    case TryDue => s.phase.Due?
    case Receive(_, _) => s.phase.Waiting?
    case Fire => s.phase.Waiting? && s.clock >= s.phase.until
    case Deliver => s.phase.Sending?
    case Quit => s.phase.Waiting?
  }

  /** After a locked check with this clock reading: a due item is on its way out, otherwise the loop
      goes on in phase. */
  function AfterCheck(s: State, now: int, phase: Phase): State {
    var (r, rest) := PopReady(s.heap, now);
    match r
    case Some(e) => s.(heap := rest, phase := Sending, released := s.released + [Release(e, now, rest)])
    case None => s.(phase := phase)
  }

  function Do(s: State, step: Step): State
    requires Enabled(s, step)
  {
    match step
    case Elapse(d) => s.(clock := s.clock + d)
    case Clear => s.(heap := [], cleared := s.cleared + multiset(s.heap))
    case LookAtHeap => s.(next := Refresh(s.heap, s.next), phase := Refreshed)
    case ChooseWait =>
      (match Deadline(s.next, s.clock)
       case None => s.(phase := Due(s.clock))
       case Some(t) => s.(phase := Waiting(s.clock, t)))
    case TryDue => AfterCheck(s, s.phase.since, Waiting(s.phase.since, s.phase.since))
    case Receive(id, readyAt) =>
      var e := Delayed(id, readyAt);
      s.(heap := HeapPush(s.heap, e), phase := Top, scheduled := s.scheduled + multiset{e})
    case Fire => AfterCheck(s, s.clock, Top)
    case Deliver => s.(phase := Top, next := None)
    case Quit => s.(phase := Stopped)
  }

  ghost predicate Init(s: State) {
    s.heap == [] && s.next == None && s.phase == Top && s.scheduled == s.cleared == multiset{} && s.released == []
  }

  ghost predicate IsRun(run: seq<State>, steps: seq<Step>) {
    && |run| == |steps| + 1 && Init(run[0])
    && forall i :: 0 <= i < |steps| ==> Enabled(run[i], steps[i]) && run[i + 1] == Do(run[i], steps[i])
  }

  // ---------- the invariant ----------

  function Out(rs: seq<Release>): multiset<Entry<Id>> {
    if rs == [] then multiset{} else
    var n := |rs| - 1;
    Out(rs[..n]) + multiset{rs[n].e}
  }

  /** The cached item, if the heap is not empty, is no later than the heap's earliest. */
  ghost predicate CacheNotLate(s: State) {
    s.heap != [] ==> s.next.Some? && ReadyAt(s.next.value) <= ReadyAt(s.heap[0])
  }

  /** The timer is set for no later than the earliest item, or for right away. */
  ghost predicate NoOversleep(s: State) {
    s.phase.Waiting? && s.heap != [] ==> s.phase.until <= s.phase.since || s.phase.until <= ReadyAt(s.heap[0])
  }

  /** An item leaves less than a millisecond early, and never before an earlier one in the heap. */
  ghost predicate ReleasedWell(r: Release) {
    ReadyAt(r.e) - r.at < MILLISECOND && forall b <- r.left :: ReadyAt(r.e) <= ReadyAt(b)
  }

  ghost predicate Inv(s: State) {
    && IsHeap(s.heap, |s.heap|)
    && (s.phase.Refreshed? || s.phase.Due? || s.phase.Waiting? ==> CacheNotLate(s))
    && NoOversleep(s)
    && (forall k :: 0 <= k < |s.released| ==> ReleasedWell(s.released[k]))
    && s.scheduled == multiset(s.heap) + s.cleared + Out(s.released)
  }

  /** A due pop takes the earliest item out, if that is due within a millisecond. */
  lemma PopReadyTakesEarliest(heap: seq<Entry<Id>>, now: int)
    requires IsHeap(heap, |heap|)
    ensures var (r, rest) := PopReady(heap, now);
            && IsHeap(rest, |rest|)
            && (r.None? ==> rest == heap)
            && (r.Some? ==>
                 && heap != [] && r.value == heap[0]
                 && multiset(heap) == multiset(rest) + multiset{r.value}
                 && ReleasedWell(Release(r.value, now, rest)))
  {
    if heap != [] && ReadyAt(heap[0]) < now + MILLISECOND {
      PopTakesLeast(heap);
      var (e, rest) := HeapPop(heap);
      hide HeapPop;
      forall b <- rest
        ensures ReadyAt(e) <= ReadyAt(b)
      {
        assert b in multiset(rest) && b in multiset(heap);
      }
    }
  }

  lemma OutMore(rs: seq<Release>, r: Release)
    ensures Out(rs + [r]) == Out(rs) + multiset{r.e}
  {
    assert (rs + [r])[..|rs|] == rs;
  }

  lemma CheckKeeps(s: State, now: int, phase: Phase)
    requires Inv(s) && (phase.Waiting? ==> phase.until <= phase.since && CacheNotLate(s))
    requires phase.Waiting? || phase.Top?
    ensures Inv(AfterCheck(s, now, phase))
  {
    PopReadyTakesEarliest(s.heap, now);
    var (r, rest) := PopReady(s.heap, now);
    if r.Some? {
      ReleaseKeeps(s, Release(r.value, now, rest));
    }
    hide PopReady, IsHeap, ReleasedWell, Out;
  }

  lemma ReleaseKeeps(s: State, r: Release)
    requires Inv(s) && IsHeap(r.left, |r.left|) && ReleasedWell(r)
    requires multiset(s.heap) == multiset(r.left) + multiset{r.e}
    ensures Inv(s.(heap := r.left, phase := Sending, released := s.released + [r]))
  {
    OutMore(s.released, r);
    hide IsHeap, ReleasedWell, Out;
    var s' := s.(heap := r.left, phase := Sending, released := s.released + [r]);
    assert s'.scheduled == multiset(s'.heap) + s'.cleared + Out(s'.released);
  }

  lemma ReceiveKeeps(s: State, id: Id, readyAt: int)
    requires Inv(s) && s.phase.Waiting?
    ensures Inv(Do(s, Receive(id, readyAt)))
  {
    PushAdds(s.heap, Delayed(id, readyAt));
    hide HeapPush, IsHeap, ReleasedWell, Out;
  }

  lemma LookKeeps(s: State)
    requires Inv(s) && s.phase.Top?
    ensures Inv(Do(s, LookAtHeap))
  {
    hide IsHeap, ReleasedWell, Out;
  }

  lemma ChooseKeeps(s: State)
    requires Inv(s) && s.phase.Refreshed?
    ensures Inv(Do(s, ChooseWait))
  {
    hide IsHeap, ReleasedWell, Out;
  }

  lemma ClearKeeps(s: State)
    requires Inv(s)
    ensures Inv(Do(s, Clear))
  {
    EmptyIsHeap();
    hide IsHeap, ReleasedWell, Out;
  }

  lemma RestKeeps(s: State, step: Step)
    requires Inv(s) && Enabled(s, step) && (step.Elapse? || step.Deliver? || step.Quit?)
    ensures Inv(Do(s, step))
  {
    hide IsHeap, ReleasedWell, Out;
  }

  lemma StepKeeps(s: State, step: Step)
    requires Inv(s) && Enabled(s, step)
    ensures Inv(Do(s, step))
  {
    hide HeapPush, PopReady, IsHeap, ReleasedWell, Out, AfterCheck, Inv;
    match step
    case LookAtHeap => LookKeeps(s);
    case ChooseWait => ChooseKeeps(s);
    case TryDue => DueKeeps(s);
    case Fire => CheckKeeps(s, s.clock, Top);
    case Receive(id, readyAt) => ReceiveKeeps(s, id, readyAt);
    case Clear => ClearKeeps(s);
    case _ => RestKeeps(s, step);
  }

  lemma DueKeeps(s: State)
    requires Inv(s) && s.phase.Due?
    ensures Inv(Do(s, TryDue))
  {
    hide AfterCheck, IsHeap, ReleasedWell, Out;
    CheckKeeps(s, s.phase.since, Waiting(s.phase.since, s.phase.since));
  }

  lemma EmptyIsHeap()
    ensures IsHeap<Id>([], 0)
  {
  }

  lemma {:induction false} EveryStateOk(run: seq<State>, steps: seq<Step>, i: nat)
    requires IsRun(run, steps) && i < |run|
    ensures Inv(run[i])
  {
    if i > 0 {
      EveryStateOk(run, steps, i - 1);
      StepKeeps(run[i - 1], steps[i - 1]);
    }
  }

  /** In every run, with Clear at any moment: whenever the loop waits while items are queued, the
      timer is set for no later than the earliest of them, or goes off at once. */
  lemma NeverOversleeps(run: seq<State>, steps: seq<Step>, i: nat, x: Entry<Id>)
    requires IsRun(run, steps) && i < |run| && run[i].phase.Waiting? && x in run[i].heap
    ensures run[i].phase.until <= run[i].phase.since || run[i].phase.until <= ReadyAt(x)
  {
    EveryStateOk(run, steps, i);
    var k :| 0 <= k < |run[i].heap| && run[i].heap[k] == x;
    RootIsLeast(run[i].heap, |run[i].heap|, k);
  }

  /** In every run: each release is less than a millisecond early, no item that was in the heap then
      was earlier, and no item is released more often than it was scheduled. */
  lemma ReleasesAreInOrder(run: seq<State>, steps: seq<Step>, i: nat, k: nat)
    requires IsRun(run, steps) && i < |run| && k < |run[i].released|
    ensures var r := run[i].released[k];
            ReadyAt(r.e) - r.at < 1_000_000 && forall b <- r.left :: ReadyAt(r.e) <= ReadyAt(b)
    ensures Out(run[i].released) <= run[i].scheduled
  {
    EveryStateOk(run, steps, i);
  }

  /** The items that have arrived before step i. */
  function Arrived(steps: seq<Step>, i: nat): multiset<Entry<Id>>
    requires i <= |steps|
  {
    if i == 0 then multiset{}
    else if steps[i - 1].Receive? then
      Arrived(steps, i - 1) + multiset{Entry(steps[i - 1].id, Rank(steps[i - 1].readyAt, 0))}
    else Arrived(steps, i - 1)
  }

  lemma StepSchedules(s: State, step: Step)
    requires Enabled(s, step)
    ensures Do(s, step).scheduled
            == s.scheduled + if step.Receive? then multiset{Entry(step.id, Rank(step.readyAt, 0))} else multiset{}
  {
    hide PopReady, HeapPush;
  }

  lemma {:induction false} ScheduledHasArrived(run: seq<State>, steps: seq<Step>, i: nat)
    requires IsRun(run, steps) && i < |run|
    ensures run[i].scheduled == Arrived(steps, i)
  {
    hide Do, Enabled;
    if i > 0 {
      ScheduledHasArrived(run, steps, i - 1);
      assert run[i - 1 + 1] == Do(run[i - 1], steps[i - 1]);
      StepSchedules(run[i - 1], steps[i - 1]);
    }
  }

  /** In every run each item that has arrived is waiting, cleared or released, and in one of these once for
      each time it has arrived. */
  lemma EveryItemIsAccountedFor(run: seq<State>, steps: seq<Step>, i: nat)
    requires IsRun(run, steps) && i < |run|
    ensures run[i].scheduled == multiset(run[i].heap) + run[i].cleared + Out(run[i].released)
    ensures run[i].scheduled == Arrived(steps, i)
  {
    EveryStateOk(run, steps, i);
    ScheduledHasArrived(run, steps, i);
  }

  // ---------- the timer ----------

  /** The wait is until the cached item is due, or for a day without one. */
  ghost predicate TimerExact(s: State) {
    && (s.phase.Due? ==> s.next.Some? && ReadyAt(s.next.value) <= s.phase.since <= s.clock)
    && (s.phase.Waiting? ==>
          s.phase.since <= s.clock &&
          s.phase.until == if s.next.None? then s.phase.since + 86_400_000_000_000
                           else if ReadyAt(s.next.value) <= s.phase.since then s.phase.since
                           else ReadyAt(s.next.value))
  }

  lemma StepKeepsTimer(s: State, step: Step)
    requires Enabled(s, step) && TimerExact(s)
    ensures TimerExact(Do(s, step))
  {
    hide PopReady, HeapPush;
  }

  /** In every run the timer is set for the very moment the cached item is due, at once if that has passed,
      and for a day ahead if there is none. */
  lemma {:induction false} TimerIsExact(run: seq<State>, steps: seq<Step>, i: nat)
    requires IsRun(run, steps) && i < |run|
    ensures TimerExact(run[i])
  {
    hide TimerExact, Do, Enabled, Init;
    if i == 0 {
      StartsUntimed(run[0]);
    } else {
      TimerIsExact(run, steps, i - 1);
      assert run[i - 1 + 1] == Do(run[i - 1], steps[i - 1]);
      StepKeepsTimer(run[i - 1], steps[i - 1]);
    }
  }

  lemma StartsUntimed(s: State)
    requires Init(s)
    ensures TimerExact(s)
  {
  }

  // ---------- spinning ----------

  /** The loop has looked at the heap, tried the cached item if it is due, and set its timer. */
  function Armed(s: State): State
    requires s.phase.Top?
  {
    var chosen := Do(Do(s, LookAtHeap), ChooseWait);
    if chosen.phase.Due? then Do(chosen, TryDue) else chosen
  }

  /** One round of the loop in which no time passes, nothing arrives and nothing is released, whichever way
      it goes: the timer goes off at once, and the loop is back where it was. */
  predicate Spins(s: State)
    requires s.phase.Top?
  {
    var armed := Armed(s);
    armed.phase.Waiting? && Enabled(armed, Fire) && Do(armed, Fire) == s.(next := armed.next)
  }

  /** The loop spins exactly when the cached item is due while nothing in the heap is; that lasts until
      something becomes due, or something earlier than the cached item arrives. */
  lemma SpinsIff(s: State)
    requires s.phase.Top?
    ensures Spins(s) <==>
              var next := Refresh(s.heap, s.next);
              && next.Some? && ReadyAt(next.value) <= s.clock
              && (s.heap == [] || s.clock + MILLISECOND <= ReadyAt(s.heap[0]))
  {
  }

  /** Outside the hand-over of a released item, the cached item is waiting or was cleared. */
  ghost predicate Traced(s: State) {
    s.next.None? || s.phase.Sending? || s.phase.Stopped? || s.next.value in s.heap || s.next.value in s.cleared
  }

  lemma StepKeepsTraced(s: State, step: Step)
    requires Enabled(s, step) && Traced(s) && IsHeap(s.heap, |s.heap|)
    ensures Traced(Do(s, step))
  {
    hide HeapPop, HeapPush, IsHeap;
    assert s.next.Some? && s.next.value in s.heap ==> s.next.value in multiset(s.heap);
    assert s.heap != [] ==> s.heap[0] in s.heap;
    match step
    case Receive(id, readyAt) =>
      PushAdds(s.heap, Delayed(id, readyAt));
      forall x <- s.heap
        ensures x in HeapPush(s.heap, Delayed(id, readyAt))
      {
        assert x in multiset(s.heap);
        assert x in multiset(HeapPush(s.heap, Delayed(id, readyAt)));
      }
    case _ =>
  }

  lemma {:induction false} EveryStateTraced(run: seq<State>, steps: seq<Step>, i: nat)
    requires IsRun(run, steps) && i < |run|
    ensures Traced(run[i])
  {
    hide Traced, Inv, Do, Enabled, Init;
    if i == 0 {
      StartTraced(run[0]);
    } else {
      EveryStateTraced(run, steps, i - 1);
      EveryStateOk(run, steps, i - 1);
      InvHeap(run[i - 1]);
      assert run[i - 1 + 1] == Do(run[i - 1], steps[i - 1]);
      StepKeepsTraced(run[i - 1], steps[i - 1]);
    }
  }

  lemma InvHeap(s: State)
    requires Inv(s)
    ensures IsHeap(s.heap, |s.heap|)
  {
  }

  lemma OnlyClearClears(s: State, step: Step)
    requires Enabled(s, step) && step != Clear
    ensures Do(s, step).cleared == s.cleared
  {
    hide PopReady, HeapPush;
  }

  lemma {:induction false} NothingCleared(run: seq<State>, steps: seq<Step>, i: nat)
    requires IsRun(run, steps) && i < |run| && forall k :: 0 <= k < i ==> steps[k] != Clear
    ensures run[i].cleared == multiset{}
  {
    hide Do, Enabled;
    if i > 0 {
      NothingCleared(run, steps, i - 1);
      assert run[i - 1 + 1] == Do(run[i - 1], steps[i - 1]);
      OnlyClearClears(run[i - 1], steps[i - 1]);
    }
  }

  lemma StartTraced(s: State)
    requires Init(s)
    ensures Traced(s)
  {
  }

  /** The cached item it spins on is not in the heap any more, because it was cleared. */
  lemma SpinsOnClearedItem(run: seq<State>, steps: seq<Step>, i: nat)
    requires IsRun(run, steps) && i < |run| && run[i].phase.Top? && Spins(run[i])
    ensures run[i].next.Some? && run[i].next.value !in run[i].heap && run[i].next.value in run[i].cleared
  {
    EveryStateOk(run, steps, i);
    EveryStateTraced(run, steps, i);
    SpinsIff(run[i]);
    hide Spins;
    var s := run[i];
    forall x <- s.heap
      ensures ReadyAt(x) > s.clock
    {
      var k :| 0 <= k < |s.heap| && s.heap[k] == x;
      RootIsLeast(s.heap, |s.heap|, k);
    }
  }

  /** So a loop whose queue has never been cleared does not spin. */
  lemma WithoutClearNoSpin(run: seq<State>, steps: seq<Step>, i: nat)
    requires IsRun(run, steps) && i < |run| && run[i].phase.Top?
    requires forall k :: 0 <= k < i ==> steps[k] != Clear
    ensures !Spins(run[i])
  {
    NothingCleared(run, steps, i);
    hide Spins;
    if Spins(run[i]) {
      SpinsOnClearedItem(run, steps, i);
      assert false;
    }
  }

  /** The check takes the earliest item out, in time. */
  ghost predicate TakesEarliest(s: State, t: State) {
    && |t.released| == |s.released| + 1 && t.released[..|s.released|] == s.released
    && var r := t.released[|s.released|];
       && ReadyAt(r.e) <= r.at <= s.clock && multiset(s.heap) == multiset(t.heap) + multiset{r.e}
       && forall x <- s.heap :: ReadyAt(r.e) <= ReadyAt(x)
  }

  lemma CheckTakes(s: State, now: int, phase: Phase, x: Entry<Id>)
    requires IsHeap(s.heap, |s.heap|) && x in s.heap && ReadyAt(x) <= now <= s.clock
    ensures TakesEarliest(s, AfterCheck(s, now, phase))
  {
    forall x <- s.heap
      ensures ReadyAt(s.heap[0]) <= ReadyAt(x)
    {
      var k :| 0 <= k < |s.heap| && s.heap[k] == x;
      RootIsLeast(s.heap, |s.heap|, k);
    }
    PopReadyTakesEarliest(s.heap, now);
    hide IsHeap, HeapPop, ReleasedWell;
  }

  /** As long as nothing was cleared no check is in vain: a timer that goes off for a cached item, or an item
      that is due, releases the earliest item, and that is not early. */
  lemma FireReleases(run: seq<State>, steps: seq<Step>, i: nat)
    requires IsRun(run, steps) && i < |steps| && ((steps[i] == Fire && run[i].next.Some?) || steps[i] == TryDue)
    requires forall k :: 0 <= k < i ==> steps[k] != Clear
    ensures TakesEarliest(run[i], run[i + 1])
  {
    var s := run[i];
    EveryStateOk(run, steps, i);
    EveryStateTraced(run, steps, i);
    NothingCleared(run, steps, i);
    TimerIsExact(run, steps, i);
    assert Enabled(s, steps[i]) && run[i + 1] == Do(s, steps[i]);
    InvHeap(s);
    hide Inv, AfterCheck, TakesEarliest, IsHeap;
    if steps[i] == Fire {
      CheckTakes(s, s.clock, Top, s.next.value);
    } else {
      CheckTakes(s, s.phase.since, Waiting(s.phase.since, s.phase.since), s.next.value);
    }
  }

  function SpinSteps(): seq<Step> {
    [LookAtHeap, ChooseWait, Receive(0, 0), LookAtHeap, Clear, ChooseWait, TryDue, Fire]
  }

  function SpinRun(): seq<State> {
    var e := Delayed(0, 0);
    var s := State([], None, Top, 0, multiset{}, multiset{}, []);
    var arrived := s.(heap := [e], scheduled := multiset{e});
    var stale := arrived.(heap := [], next := Some(e), cleared := multiset{e});
    [s, s.(phase := Refreshed), s.(phase := Waiting(0, DAY)), arrived, arrived.(next := Some(e), phase := Refreshed),
     stale.(phase := Refreshed), stale.(phase := Due(0)), stale.(phase := Waiting(0, 0)), stale]
  }

  lemma SpinStep(k: nat)
    requires k < 8
    ensures var s, step := SpinRun()[k], SpinSteps()[k];
            Enabled(s, step) && SpinRun()[k + 1] == Do(s, step)
  {
    var e := Delayed(0 as Id, 0);
    assert [] + [e] == [e];
    assert HeapPush([], e) == [e];
    hide HeapPush;
  }

  /** A concrete run: an item is cleared after the loop has cached it, and the loop spins on an empty
      heap. */
  lemma ClearMakesItSpin() returns (run: seq<State>, steps: seq<Step>)
    ensures IsRun(run, steps) && |steps| == 8 && steps[4] == Clear
    ensures run[8].heap == [] && run[8].phase.Top? && Spins(run[8])
  {
    run, steps := SpinRun(), SpinSteps();
    SpinsIff(run[8]);
    assert Init(run[0]) && |run| == 9;
    hide SpinRun, SpinSteps, Spins, Init;
    forall k | 0 <= k < 8
      ensures Enabled(SpinRun()[k], SpinSteps()[k]) && SpinRun()[k + 1] == Do(SpinRun()[k], SpinSteps()[k])
    {
      SpinStep(k);
    }
    hide Do, Enabled;
  }

  // ---------- the queue in place ----------

  class DelayedQueue {
    var items: seq<HeapItem>
    ghost var heap: seq<Entry<Message>>  // the items, on values
    ghost var own: set<HeapItem>

    ghost predicate Valid()
      reads this, own
    {
      && Indexed(items, own)
      && Holds(items, heap)
      && IsHeap(heap, |heap|)
    }

    /** The loop's cached item, on values. */
    function Cached(next: Option<HeapItem>): Option<Entry<Message>> {
      match next
      case None => None
      case Some(x) => Some(Entry(x.payload, x.rank))
    }

    constructor ()
      ensures Valid() && heap == [] && own == {}
    {
      items, heap, own := [], [], {};
    }

    /** heap.Push of a scheduled item, as the loop receives it. */
    method Receive(message: Message, readyAt: int)
      requires Valid()
      modifies this, own
      ensures Valid() && fresh(own - old(own))
      ensures heap == HeapPush(old(heap), Delayed(message, readyAt))
    {
      var item := new HeapItem(message, Rank(readyAt, 0), "");
      var r := PushItem(items, item, heap, own);
      PushAdds(heap, Delayed(message, readyAt));
      items, heap, own := r, HeapPush(heap, Delayed(message, readyAt)), own + {item};
    }

    method Peek() returns (r: Option<(Message, int)>)
      requires Valid()
      ensures r == if heap == [] then None else Some((heap[0].payload, ReadyAt(heap[0])))
    {
      r := if items == [] then None else Some((items[0].payload, items[0].rank.major));
    }

    method Clear()
      requires Valid()
      modifies this
      ensures Valid() && heap == [] && own == old(own)
    {
      items, heap := [], [];
    }

    method RefreshNext(next: Option<HeapItem>) returns (r: Option<HeapItem>)
      requires Valid()
      ensures Cached(r) == Refresh(heap, Cached(next))
    {
      r := next;
      if |items| > 0 && (next.None? || items[0].rank.major < next.value.rank.major) {
        r := Some(items[0]);
      }
    }

    method PopDue(now: int) returns (r: Option<Message>)
      requires Valid()
      modifies this, own
      ensures Valid() && own == old(own)
      ensures var (e, rest) := PopReady(old(heap), now);
              heap == rest && r == match e case None => None case Some(x) => Some(x.payload)
    {
      r := None;
      if |items| > 0 && items[0].rank.major < now + MILLISECOND {
        PopTakesLeast(heap);
        var item, rest := PopItem(items, heap, own);
        items, heap := rest, HeapPop(heap).1;
        r := Some(item.payload);
      }
    }
  }
}
