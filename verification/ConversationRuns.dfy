/** Concrete runs of the state manager in which something is lost, comes back or is deleted all the same. */
module ConversationRuns {
  import opened ConversationHistory
  import opened ConversationProtocol
  import opened Conversations
  import opened Messages

  // ---------- concrete runs ----------

  /** Two calls for one conversation both miss it and fetch, and the first inserts what it brings. */
  function Opening(id: string, user: string): seq<Step> {
    [DoMiss(0, id, user, true), DoMiss(1, id, user, true), DoFetch(0), DoFetch(1), DoInsert(0, 0)]
  }

  function Opened(id: string, user: string, r: Option<Record>): seq<Shared> {
    var store := if r.Some? then map[id := r.value] else map[];
    var s := State(map[], store, map[]);
    var missed, fetched := Missed(id, user, true), Fetched(id, user, true, r);
    [Shared(s, map[], []),
     Shared(s, map[0 := missed], []),
     Shared(s, map[0 := missed, 1 := missed], []),
     Shared(s, map[0 := fetched, 1 := missed], []),
     Shared(s, map[0 := fetched, 1 := fetched], []),
     Shared(State(map[id := Brought(r, user, true, 0).value], store, map[user := [id]]), map[1 := fetched], [])]
  }

  lemma OpeningStep(c: Config, id: string, user: string, r: Option<Record>, k: nat)
    requires c.persist && k < 5
    ensures Enabled(Opened(id, user, r)[k], c, Opening(id, user)[k])
    ensures Opened(id, user, r)[k + 1] == Do(Opened(id, user, r)[k], c, Opening(id, user)[k], {})
  {
    var w, t := Opened(id, user, r)[k], Opened(id, user, r)[k + 1];
    if k == 4 {
      assert map[][id := Brought(r, user, true, 0).value] == t.s.memory;
      assert map[][user := [id]] == t.s.active;
      assert w.calls - {0} == t.calls;
    } else if k == 0 {
      assert w.calls[0 := Missed(id, user, true)] == t.calls;
    } else if k == 1 {
      assert w.calls[1 := Missed(id, user, true)] == t.calls;
    } else {
      assert w.calls[k - 2 := Fetched(id, user, true, r)] == t.calls;
    }
  }

  function Nothing(n: nat): (r: seq<set<string>>)
    ensures |r| == n && forall i :: 0 <= i < n ==> r[i] == {}
  {
    seq(n, i => {})
  }

  lemma SayInBetween(c: Config, id: string, user: string, m: MessageData)
    requires c.persist
    ensures var Shared(s, calls, _) := Do(Opened(id, user, None)[5], c, DoSay(id, m, 1), {});
            && calls == map[1 := Fetched(id, user, true, None)] && s.active == map[user := [id]]
            && id in s.store && s.store[id].messages == [m]
  {
    assert [] + [m] == [m];
  }

  lemma DeleteInBetween(c: Config, id: string, user: string, r: Record)
    requires c.persist && r.userId == user
    ensures Do(Opened(id, user, Some(r))[5], c, DoDelete(id), {})
            == Shared(State(map[], map[], map[user := []]), map[1 := Fetched(id, user, true, Some(r))], [])
  {
    var s := Opened(id, user, Some(r))[5].s;
    DeleteOne(s, c, id, {});
    hide DeleteAll;
    assert [id][..0] == [];
    assert Without([id], {id}) == [];
    assert s.memory - {id} == map[] && s.store - {id} == map[] && s.active[user := []] == map[user := []];
  }

  /** The second call inserts what it has brought over whatever there is by now. */
  lemma Closes(w: Shared, c: Config, id: string, user: string, r: Option<Record>)
    requires w.calls == map[1 := Fetched(id, user, true, r)] && user in w.s.active
    requires w.s.active[user] == [id] || w.s.active[user] == []
    ensures Enabled(w, c, DoInsert(1, 2))
    ensures var s := Do(w, c, DoInsert(1, 2), {}).s;
            s.memory == w.s.memory[id := Brought(r, user, true, 2).value] && s.store == w.s.store
  {
    var t := w.s.(memory := w.s.memory[id := Brought(r, user, true, 2).value]);
    NonePushedOut(w.s.active, user, id, c.maxConversations);
    hide Relist, Brought, ArchiveAll;
    NoneArchived(t.(active := Relist(w.s.active, user, id, c.maxConversations).0), c, 2);
  }

  lemma NonePushedOut(active: map<string, seq<string>>, user: string, id: string, max: int)
    requires user in active && (active[user] == [id] || active[user] == [])
    ensures Relist(active, user, id, max).1 == []
  {
  }

  lemma NoneArchived(s: State, c: Config, now: int)
    ensures ArchiveAll(s, c, [], now, {}) == s
  {
  }

  /** One more step of a run in which no store call fails. */
  lemma RunMore(run: seq<Shared>, c: Config, steps: seq<Step>, step: Step)
    requires IsRun(run, c, steps, Nothing(|steps|)) && run != [] && Enabled(run[|steps|], c, step)
    ensures IsRun(run + [Do(run[|steps|], c, step, {})], c, steps + [step], Nothing(|steps| + 1))
  {
    hide Enabled, Do;
    var n := |steps|;
    var run', steps' := run + [Do(run[n], c, step, {})], steps + [step];
    forall i | 0 <= i < n + 1
      ensures Enabled(run'[i], c, steps'[i]) && run'[i + 1] == Do(run'[i], c, steps'[i], Nothing(n + 1)[i])
    {
      assert i < n ==> run'[i] == run[i] && run'[i + 1] == run[i + 1] && steps'[i] == steps[i] && Nothing(n)[i] == {};
    }
  }

  lemma OpeningRun(c: Config, id: string, user: string, r: Option<Record>)
    requires c.persist
    ensures |Opening(id, user)| == 5 && |Opened(id, user, r)| == 6
    ensures IsRun(Opened(id, user, r), c, Opening(id, user), Nothing(5))
  {
    forall k | 0 <= k < 5 {
      OpeningStep(c, id, user, r, k);
    }
    assert |Opening(id, user)| == 5 && |Opened(id, user, r)| == 6;
    hide Do, Enabled, Opened, Opening;
  }

  lemma AlwaysEnabled(w: Shared, c: Config, between: Step)
    requires between.DoSay? || between.DoDelete?
    ensures Enabled(w, c, between)
  {
  }

  lemma OverlappingRun(c: Config, id: string, user: string, r: Option<Record>, between: Step)
    returns (run: seq<Shared>, steps: seq<Step>)
    requires c.persist && (between.DoSay? || between.DoDelete?)
    requires var w := Do(Opened(id, user, r)[5], c, between, {});
             && w.calls == map[1 := Fetched(id, user, true, r)] && user in w.s.active
             && (w.s.active[user] == [id] || w.s.active[user] == [])
    ensures IsRun(run, c, steps, Nothing(7)) && steps == Opening(id, user) + [between, DoInsert(1, 2)]
    ensures run[0] == Opened(id, user, r)[0] && run[6] == Do(Opened(id, user, r)[5], c, between, {})
    ensures run[7].s.memory == run[6].s.memory[id := Brought(r, user, true, 2).value] &&
            run[7].s.store == run[6].s.store
  {
    hide *;
    OpeningRun(c, id, user, r);
    var start, opening := Opened(id, user, r), Opening(id, user);
    AlwaysEnabled(start[5], c, between);
    RunMore(start, c, opening, between);
    var w := Do(start[5], c, between, {});
    Closes(w, c, id, user, r);
    RunMore(start + [w], c, opening + [between], DoInsert(1, 2));
    run, steps := start + [w] + [Do(w, c, DoInsert(1, 2), {})], opening + [between] + [DoInsert(1, 2)];
    assert steps == opening + [between, DoInsert(1, 2)];
  }

  /** A concrete run: two overlapping calls of GetConversation, and a message between their insertions.  No
      store call fails, yet the message is gone from memory, and with the next save from the store too. */
  lemma OverlappingCallsLose(c: Config, id: string, user: string, m: MessageData)
    returns (run: seq<Shared>, steps: seq<Step>)
    requires c.persist
    ensures IsRun(run, c, steps, Nothing(7)) && run[0] == Shared(START, map[], [])
    ensures steps == Opening(id, user) + [DoSay(id, m, 1), DoInsert(1, 2)]
    ensures id in run[7].s.memory && id in run[7].s.store && !Clean(run[7].s, id)
    ensures run[7].s.memory[id].messages == [] && run[7].s.store[id].messages == [m]
    ensures forall next: MessageData, now: int :: Say(run[7].s, c, id, next, now, {}).store[id].messages == [next]
  {
    SayInBetween(c, id, user, m);
    assert Opened(id, user, None)[0] == Shared(START, map[], []);
    hide Do, Opened, IsRun;
    run, steps := OverlappingRun(c, id, user, None, DoSay(id, m, 1));
  }

  /** Another: the same with a stored conversation that is deleted in between; it comes back. */
  lemma DeletedComesBack(c: Config, id: string, user: string, r: Record)
    returns (run: seq<Shared>, steps: seq<Step>)
    requires c.persist && r.userId == user
    ensures IsRun(run, c, steps, Nothing(7)) && run[0] == Shared(State(map[], map[id := r], map[]), map[], [])
    ensures steps == Opening(id, user) + [DoDelete(id), DoInsert(1, 2)]
    ensures id !in run[6].s.memory && run[7].s.memory == map[id := r] && run[7].s.store == map[]
  {
    DeleteInBetween(c, id, user, r);
    assert Opened(id, user, Some(r))[0] == Shared(State(map[], map[id := r], map[]), map[], []);
    hide Do, Opened, IsRun;
    run, steps := OverlappingRun(c, id, user, Some(r), DoDelete(id));
  }

  function CleanupSteps(id: string, user: string, t: int): seq<Step> {
    [DoMiss(0, id, user, true), DoFetch(0), DoInsert(0, 0), DoCollect(t, [id]), DoRefresh(id, t), DoSweep]
  }

  function CleanupStages(id: string, user: string, t: int): seq<Shared> {
    var s, blank := State(map[], map[], map[]), Blank(user, 0);
    var listed := State(map[id := blank], map[], map[user := [id]]);
    [Shared(s, map[], []),
     Shared(s, map[0 := Missed(id, user, true)], []),
     Shared(s, map[0 := Fetched(id, user, true, None)], []),
     Shared(listed, map[], []),
     Shared(listed, map[], [id]),
     Shared(listed.(memory := map[id := blank.(lastActive := t)]), map[], [id]),
     Shared(State(map[], map[], map[user := []]), map[], [])]
  }

  lemma CleanupStep(c: Config, id: string, user: string, t: int, k: nat)
    requires 0 < c.maxIdle < t && k < 6
    ensures Enabled(CleanupStages(id, user, t)[k], c, CleanupSteps(id, user, t)[k])
    ensures CleanupStages(id, user, t)[k + 1] == Do(CleanupStages(id, user, t)[k], c, CleanupSteps(id, user, t)[k], {})
  {
    var w, t := CleanupStages(id, user, t)[k], CleanupStages(id, user, t)[k + 1];
    if k == 5 {
      DeleteOne(w.s, c, id, {});
      hide DeleteAll;
      assert [id][..0] == [];
      assert Without([id], {id}) == [];
      assert w.s.memory - {id} == map[] && w.s.active[user := []] == t.s.active;
    } else if k == 2 {
      assert map[][user := [id]] == t.s.active && map[][id := Blank(user, 0)] == t.s.memory;
    }
  }

  /** A concrete run: an idle conversation is collected, then used, and deleted all the same. */
  lemma UsedIsSwept(c: Config, id: string, user: string, t: int) returns (run: seq<Shared>, steps: seq<Step>)
    requires 0 < c.maxIdle < t && (c.ttl > 0 ==> t <= c.ttl)
    ensures IsRun(run, c, steps, Nothing(6)) && run[0] == Shared(START, map[], [])
    ensures steps[3] == DoCollect(t, [id]) && steps[5] == DoSweep && Timely(steps)
    ensures id in run[5].s.memory && !Expired(run[5].s.memory[id], c, t) && id !in run[6].s.memory
  {
    steps, run := CleanupSteps(id, user, t), CleanupStages(id, user, t);
    forall k | 0 <= k < 6 {
      CleanupStep(c, id, user, t, k);
    }
    hide Do, Enabled;
  }
}
