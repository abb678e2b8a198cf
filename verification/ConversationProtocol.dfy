/** The state manager as a protocol: every locked section is one step, and so is every store call made with
    no lock held.  A call of GetConversation, or of GetUserConversations for one conversation, that does not
    find it in memory runs in three: a miss, a fetch, and an insertion that overwrites what is there.  Each
    step names the ids for which the store's calls fail. */
module ConversationProtocol {
  import opened Conversations
  import opened Messages

  datatype Call =
    | Missed(id: string, user: string, listed: bool)
    | Fetched(id: string, user: string, listed: bool, r: Option<Record>)

  datatype Shared = Shared(s: State,
                           calls: map<nat, Call>,  // the calls between their miss and their insertion
                           sweep: seq<string>)     // what the cleanup has yet to delete

  datatype Step =
    | DoMiss(k: nat, id: string, user: string, listed: bool)
    | DoFetch(k: nat)
    | DoInsert(k: nat, now: int)
    | DoRefresh(id: string, now: int)
    | DoSay(id: string, m: MessageData, now: int)
    | DoSetStatus(id: string, status: Status, now: int)
    | DoSetMetadata(id: string, metadata: map<string, string>)
    | DoDelete(id: string)
    | DoCollect(now: int, order: seq<string>)
    | DoSweep

  ghost predicate Distinct(ids: seq<string>) {
    forall i, j :: 0 <= i < j < |ids| ==> ids[i] != ids[j]
  }

  ghost predicate Enabled(w: Shared, c: Config, step: Step) {
    match step
    case DoMiss(k, id, _, _) => k !in w.calls && id !in w.s.memory
    case DoFetch(k) => k in w.calls && w.calls[k].Missed?
    case DoInsert(k, _) => k in w.calls && w.calls[k].Fetched?
    case DoRefresh(id, _) => id in w.s.memory
    case DoCollect(now, order) =>
      && w.sweep == [] && Distinct(order)
      && forall id :: id in order <==> id in ExpiredIds(w.s, c, now)
    case DoSweep => w.sweep != []
    case _ => true
  }

  function Do(w: Shared, c: Config, step: Step, bad: set<string>): Shared
    requires Enabled(w, c, step)
  {
    match step
    case DoMiss(k, id, user, listed) => w.(calls := w.calls[k := Missed(id, user, listed)])
    case DoFetch(k) =>
      var Missed(id, user, listed) := w.calls[k];
      w.(calls := w.calls[k := Fetched(id, user, listed, Fetch(w.s, c, id, bad))])
    case DoInsert(k, now) =>
      var Fetched(id, user, listed, r) := w.calls[k];
      w.(s := Insert(w.s, c, id, user, r, listed, now, bad), calls := w.calls - {k})
    case DoRefresh(id, now) => w.(s := Refresh(w.s, id, now))
    case DoSay(id, m, now) => w.(s := Say(w.s, c, id, m, now, bad))
    case DoSetStatus(id, status, now) => w.(s := SetStatus(w.s, c, id, status, now, bad))
    case DoSetMetadata(id, metadata) => w.(s := SetMetadata(w.s, c, id, metadata, bad))
    case DoDelete(id) => w.(s := Delete(w.s, c, id, bad))
    case DoCollect(_, order) => w.(sweep := order)
    case DoSweep => w.(s := Delete(w.s, c, w.sweep[0], bad), sweep := w.sweep[1..])
  }

  ghost predicate IsRun(run: seq<Shared>, c: Config, steps: seq<Step>, bad: seq<set<string>>) {
    && |run| == |steps| + 1 && |bad| == |steps|
    && forall i :: 0 <= i < |steps| ==> Enabled(run[i], c, steps[i]) && run[i + 1] == Do(run[i], c, steps[i], bad[i])
  }

  // ---------- uninterrupted calls ----------

  /** A call that misses, with nothing between its three steps. */
  ghost function Uninterrupted(w: Shared, c: Config, k: nat, id: string, user: string, listed: bool, now: int,
                               bad: set<string>)
    : Shared
    requires k !in w.calls && id !in w.s.memory
  {
    var missed := Do(w, c, DoMiss(k, id, user, listed), bad);
    var fetched := Do(missed, c, DoFetch(k), bad);
    Do(fetched, c, DoInsert(k, now), bad)
  }

  lemma CallLeavesNothing(calls: map<nat, Call>, k: nat, a: Call, b: Call)
    requires k !in calls
    ensures calls[k := a][k := b] - {k} == calls
  {
  }

  /** With nothing between its sections GetConversation is Get, and loading one listed conversation is
      LoadId; the call leaves nothing behind. */
  lemma UninterruptedMeans(w: Shared, c: Config, k: nat, id: string, user: string, now: int, bad: set<string>)
    requires k !in w.calls && id !in w.s.memory
    ensures Uninterrupted(w, c, k, id, user, true, now, bad) == w.(s := Get(w.s, c, id, user, now, bad))
    ensures Uninterrupted(w, c, k, id, user, false, now, bad) == w.(s := LoadId(w.s, c, id, bad))
  {
    var r := Fetch(w.s, c, id, bad);
    CallLeavesNothing(w.calls, k, Missed(id, user, true), Fetched(id, user, true, r));
    CallLeavesNothing(w.calls, k, Missed(id, user, false), Fetched(id, user, false, r));
    hide Touch;
  }

  /** n deletions of the cleanup with nothing in between. */
  ghost function SweepOn(w: Shared, c: Config, n: nat, bad: set<string>): Shared
    requires n <= |w.sweep|
    ensures SweepOn(w, c, n, bad).sweep == w.sweep[n..]
  {
    if n == 0 then w else Do(SweepOn(w, c, n - 1, bad), c, DoSweep, bad)
  }

  /** A cleanup with nothing in between deletes exactly the expired conversations. */
  lemma CleanupUninterrupted(w: Shared, c: Config, now: int, order: seq<string>, bad: set<string>)
    requires Enabled(w, c, DoCollect(now, order))
    ensures SweepOn(Do(w, c, DoCollect(now, order), bad), c, |order|, bad)
            == w.(s := DeleteAll(w.s, c, ExpiredIds(w.s, c, now), bad))
  {
    var w1 := Do(w, c, DoCollect(now, order), bad);
    assert order[..|order|] == order;
    assert Listing(order) == ExpiredIds(w.s, c, now);
    SweepsDelete(w1, c, |order|, bad);
  }

  ghost function Listing(ids: seq<string>): set<string> {
    set id | id in ids
  }

  lemma {:induction false} SweepsDelete(w: Shared, c: Config, n: nat, bad: set<string>)
    requires n <= |w.sweep| && Distinct(w.sweep) && forall id <- w.sweep :: id in w.s.memory
    ensures Listing(w.sweep[..n]) <= w.s.memory.Keys
    ensures SweepOn(w, c, n, bad) == w.(s := DeleteAll(w.s, c, Listing(w.sweep[..n]), bad), sweep := w.sweep[n..])
  {
    if n == 0 {
      assert Listing(w.sweep[..0]) == {} && w.sweep[0..] == w.sweep;
      DeleteNone(w.s, c, bad);
    } else {
      SweepsDelete(w, c, n - 1, bad);
      var gone := Listing(w.sweep[..n - 1]);
      var id := w.sweep[n - 1];
      assert w.sweep[..n] == w.sweep[..n - 1] + [id];
      assert Listing(w.sweep[..n]) == gone + {id};
      DeleteOneMore(w.s, c, gone, id, bad);
      hide DeleteAll;
    }
  }

  // ---------- the cache and the store agree ----------

  predicate Same(a: Record, b: Record) {
    a.messages == b.messages && a.status == b.status && a.metadata == b.metadata
  }

  function At<T>(entries: map<string, T>, key: string): Option<T> {
    if key in entries then Some(entries[key]) else None
  }

  /** What the store, or an empty start, would give back. */
  function Kept(s: State, id: string): Record {
    if id in s.store then s.store[id] else Blank("", 0)
  }

  predicate Clean(s: State, id: string) {
    id in s.memory ==> Same(s.memory[id], Kept(s, id))
  }

  /** The step puts a record under the id. */
  predicate Inserts(w: Shared, step: Step, id: string) {
    && step.DoInsert? && step.k in w.calls && w.calls[step.k].Fetched?
    && var call := w.calls[step.k];
    && call.id == id && Brought(call.r, call.user, call.listed, step.now).Some?
  }

  function BroughtBy(w: Shared, step: Step, id: string): Record
    requires Inserts(w, step, id)
  {
    var call := w.calls[step.k];
    Brought(call.r, call.user, call.listed, step.now).value
  }

  /** If the step is an insertion of the conversation, what it brings is what the store has by now. */
  predicate FreshInsert(w: Shared, step: Step, id: string) {
    Inserts(w, step, id) ==> Same(BroughtBy(w, step, id), Kept(w.s, id))
  }

  /** The ids that an insertion pushes out of a user's list. */
  function PushedOut(w: Shared, c: Config, step: Step): seq<string> {
    if step.DoInsert? && step.k in w.calls && w.calls[step.k].Fetched? && w.calls[step.k].listed then
      Relist(w.s.active, w.calls[step.k].user, w.calls[step.k].id, c.maxConversations).1
    else []
  }

  lemma RelistSpares(active: map<string, seq<string>>, user: string, id: string, max: int)
    ensures id !in Relist(active, user, id, max).1
  {
  }

  lemma {:induction false} ArchiveAllSparesStore(s: State, c: Config, ids: seq<string>, now: int, bad: set<string>,
                                                 id: string)
    requires id !in ids || id !in s.memory || id in bad
    ensures At(ArchiveAll(s, c, ids, now, bad).store, id) == At(s.store, id)
  {
    if ids != [] {
      ArchiveAllSparesStore(s, c, ids[..|ids| - 1], now, bad, id);
    }
  }

  lemma {:induction false} ArchiveAllKeepsClean(s: State, c: Config, ids: seq<string>, now: int, bad: set<string>,
                                                id: string)
    requires c.persist && Clean(s, id) && id !in bad
    ensures Clean(ArchiveAll(s, c, ids, now, bad), id)
  {
    if ids != [] {
      ArchiveAllKeepsClean(s, c, ids[..|ids| - 1], now, bad, id);
    }
  }

  /** An insertion leaves what it brings in memory, and the conversation's snapshot as it was. */
  lemma InsertMeans(w: Shared, c: Config, step: Step, bad: set<string>, id: string)
    requires Enabled(w, c, step) && Inserts(w, step, id)
    ensures var t := Do(w, c, step, bad).s;
            id in t.memory && t.memory[id] == BroughtBy(w, step, id) && At(t.store, id) == At(w.s.store, id)
  {
    var Fetched(_, user, listed, _) := w.calls[step.k];
    if listed {
      var (lists, oldest) := Relist(w.s.active, user, id, c.maxConversations);
      RelistSpares(w.s.active, user, id, c.maxConversations);
      hide Relist;
      var s := w.s.(memory := w.s.memory[id := BroughtBy(w, step, id)], active := lists);
      ArchiveAllSparesOthers(s, c, oldest, step.now, bad, id);
      ArchiveAllSparesStore(s, c, oldest, step.now, bad, id);
    }
  }

  /** What an insertion of another conversation can do to this one is archive it. */
  lemma InsertElsewhere(w: Shared, c: Config, step: Step, bad: set<string>, id: string)
    requires Enabled(w, c, step) && step.DoInsert? && !Inserts(w, step, id)
    ensures var t := Do(w, c, step, bad).s;
            && (id in t.memory <==> id in w.s.memory)
            && (id in w.s.memory ==> t.memory[id].messages == w.s.memory[id].messages)
            && (id in w.s.memory ==>
                  t.memory[id] == if id in PushedOut(w, c, step) then Archive(w.s.memory[id], step.now)
                                  else w.s.memory[id])
            && (id !in w.s.memory || id !in PushedOut(w, c, step) || id in bad ==> At(t.store, id) == At(w.s.store, id))
            && (c.persist && Clean(w.s, id) && id !in bad ==> Clean(t, id))
  {
    var Fetched(x, user, listed, r) := w.calls[step.k];
    if listed {
      var (lists, oldest) := Relist(w.s.active, user, x, c.maxConversations);
      hide Relist;
      var s := w.s.(memory := w.s.memory[x := Brought(r, user, listed, step.now).value], active := lists);
      assert Do(w, c, step, bad).s == ArchiveAll(s, c, oldest, step.now, bad);
      hide ArchiveAll, Archive, Same;
      if id in w.s.memory {
        ArchiveAllKeepsMessages(s, c, oldest, step.now, bad, id);
        if id in oldest {
          ArchiveAllArchives(s, c, oldest, step.now, bad, id);
        } else {
          ArchiveAllSparesOthers(s, c, oldest, step.now, bad, id);
        }
      }
      if id !in w.s.memory || id !in oldest || id in bad {
        ArchiveAllSparesStore(s, c, oldest, step.now, bad, id);
      }
      if c.persist && Clean(w.s, id) && id !in bad {
        ArchiveAllKeepsClean(s, c, oldest, step.now, bad, id);
      }
    }
  }

  lemma {:induction false} ArchiveAllKeepsMessages(s: State, c: Config, ids: seq<string>, now: int, bad: set<string>,
                                                   id: string)
    requires id in s.memory
    ensures ArchiveAll(s, c, ids, now, bad).memory[id].messages == s.memory[id].messages
  {
    if ids != [] {
      ArchiveAllKeepsMessages(s, c, ids[..|ids| - 1], now, bad, id);
    }
  }

  /** A step keeps a conversation's cache and store in agreement, if no store call for it fails, exactly
      when it is not an insertion of something the store no longer has. */
  lemma StepKeepsCleanIff(w: Shared, c: Config, step: Step, bad: set<string>, id: string)
    requires Enabled(w, c, step) && c.persist && Clean(w.s, id) && id !in bad
    ensures Clean(Do(w, c, step, bad).s, id) <==> FreshInsert(w, step, id)
  {
    hide Insert, Without, ExpiredIds, Distinct;
    if step.DoInsert? {
      if Inserts(w, step, id) {
        InsertMeans(w, c, step, bad, id);
      } else {
        InsertElsewhere(w, c, step, bad, id);
      }
    }
  }

  /** So in a run in which the store never fails for a conversation, the two agree at every moment exactly
      when every insertion of it brings what the store has at that moment. */
  lemma {:induction false} CleanThroughoutIff(run: seq<Shared>, c: Config, steps: seq<Step>, bad: seq<set<string>>,
                                              j: nat, id: string)
    requires c.persist && IsRun(run, c, steps, bad) && j < |run| && Clean(run[0].s, id)
    requires forall i :: 0 <= i < j ==> id !in bad[i]
    ensures (forall i :: 0 <= i <= j ==> Clean(run[i].s, id))
            <==> (forall i :: 0 <= i < j ==> FreshInsert(run[i], steps[i], id))
  {
    hide Enabled, Do, Clean, FreshInsert;
    if j > 0 {
      CleanThroughoutIff(run, c, steps, bad, j - 1, id);
      assert run[j - 1 + 1] == Do(run[j - 1], c, steps[j - 1], bad[j - 1]);
      if Clean(run[j - 1].s, id) {
        StepKeepsCleanIff(run[j - 1], c, steps[j - 1], bad[j - 1], id);
      }
      if forall i :: 0 <= i < j ==> FreshInsert(run[i], steps[i], id) {
        forall i | 0 <= i <= j
          ensures Clean(run[i].s, id)
        {
          assert i <= j - 1 || i == j;
        }
      }
    }
  }

  /** A message or an update whose save succeeds makes them agree, whatever failed before. */
  lemma SaveRestoresClean(w: Shared, c: Config, step: Step, bad: set<string>)
    requires c.persist && (step.DoSay? || step.DoSetStatus? || step.DoSetMetadata?)
    requires step.id in w.s.memory && step.id !in bad
    ensures Clean(Do(w, c, step, bad).s, step.id)
  {
  }

  // ---------- when an insertion is fresh ----------

  /** The step writes or erases the conversation's snapshot. */
  predicate Saves(w: Shared, c: Config, step: Step, bad: set<string>, id: string) {
    && id in w.s.memory && id !in bad
    && match step
       case DoSay(x, _, _) => x == id
       case DoSetStatus(x, _, _) => x == id
       case DoSetMetadata(x, _) => x == id
       case DoDelete(x) => x == id
       case DoSweep => w.sweep != [] && w.sweep[0] == id
       case DoInsert(_, _) => id in PushedOut(w, c, step)
       case _ => false
  }

  lemma UnsavedStays(w: Shared, c: Config, step: Step, bad: set<string>, id: string)
    requires Enabled(w, c, step) && !Saves(w, c, step, bad, id)
    ensures At(Do(w, c, step, bad).s.store, id) == At(w.s.store, id)
  {
    hide Insert, PushedOut, Without, ExpiredIds, Distinct;
    if step.DoInsert? {
      if Inserts(w, step, id) {
        InsertMeans(w, c, step, bad, id);
      } else {
        InsertElsewhere(w, c, step, bad, id);
      }
    }
  }

  lemma {:induction false} SnapshotStays(run: seq<Shared>, c: Config, steps: seq<Step>, bad: seq<set<string>>, i: nat,
                                         j: nat, id: string)
    requires IsRun(run, c, steps, bad) && i <= j < |run|
    requires forall m :: i <= m < j ==> !Saves(run[m], c, steps[m], bad[m], id)
    ensures At(run[j].s.store, id) == At(run[i].s.store, id)
    decreases j
  {
    hide Enabled, Do, Saves;
    if i < j {
      SnapshotStays(run, c, steps, bad, i, j - 1, id);
      assert run[j - 1 + 1] == Do(run[j - 1], c, steps[j - 1], bad[j - 1]);
      UnsavedStays(run[j - 1], c, steps[j - 1], bad[j - 1], id);
    }
  }

  /** Call k stays as it was fetched until it inserts. */
  lemma {:induction false} CallStays(run: seq<Shared>, c: Config, steps: seq<Step>, bad: seq<set<string>>, i: nat,
                                     j: nat, k: nat)
    requires IsRun(run, c, steps, bad) && i < j < |run| && steps[i] == DoFetch(k)
    requires forall m :: i < m < j ==> !(steps[m].DoInsert? && steps[m].k == k)
    ensures k in run[i].calls && k in run[j].calls
    ensures var call := run[i].calls[k];
            run[j].calls[k] == Fetched(call.id, call.user, call.listed, Fetch(run[i].s, c, call.id, bad[i]))
    decreases j
  {
    assert Enabled(run[i], c, steps[i]) && run[i + 1] == Do(run[i], c, steps[i], bad[i]);
    if i + 1 < j {
      CallStays(run, c, steps, bad, i, j - 1, k);
      assert Enabled(run[j - 1], c, steps[j - 1]) && run[j - 1 + 1] == Do(run[j - 1], c, steps[j - 1], bad[j - 1]);
      hide Insert, Fetch, Delete, Say, SetStatus, SetMetadata, ExpiredIds, Distinct;
    }
  }

  /** An insertion leaves memory and store in agreement, whatever went on between its fetch and itself,
      exactly when the snapshot is again the one it fetched; and so it does if nothing saved or deleted
      the conversation in between. */
  lemma InsertIsCleanIff(run: seq<Shared>, c: Config, steps: seq<Step>, bad: seq<set<string>>, i: nat, j: nat, k: nat,
                         id: string)
    requires c.persist && IsRun(run, c, steps, bad) && i < j < |steps|
    requires steps[i] == DoFetch(k) && steps[j].DoInsert? && steps[j].k == k
    requires forall m :: i < m < j ==> !(steps[m].DoInsert? && steps[m].k == k)
    requires Inserts(run[j], steps[j], id) && id !in bad[i]
    ensures Clean(run[j + 1].s, id) <==> Same(Kept(run[i].s, id), Kept(run[j].s, id))
    ensures (forall m :: i <= m < j ==> !Saves(run[m], c, steps[m], bad[m], id)) ==> Clean(run[j + 1].s, id)
  {
    CallStays(run, c, steps, bad, i, j, k);
    assert Enabled(run[j], c, steps[j]) && run[j + 1] == Do(run[j], c, steps[j], bad[j]);
    hide Enabled, Do;
    InsertMeans(run[j], c, steps[j], bad[j], id);
    if forall m :: i <= m < j ==> !Saves(run[m], c, steps[m], bad[m], id) {
      hide Saves;
      SnapshotStays(run, c, steps, bad, i, j, id);
    }
  }

  // ---------- one call at a time ----------

  /** The calls that have missed the conversation. */
  ghost predicate Waits(w: Shared, k: nat, id: string) {
    k in w.calls && w.calls[k].id == id
  }

  /** No call misses the conversation while another one that has is still on its way. */
  ghost predicate Alone(w: Shared, step: Step, id: string) {
    step.DoMiss? && step.id == id ==> forall k :: !Waits(w, k, id)
  }

  /** At most one call is on its way, the conversation is not in memory meanwhile, and what the call has
      fetched is what the store has. */
  ghost predicate Solo(w: Shared, id: string) {
    && (forall k, l :: Waits(w, k, id) && Waits(w, l, id) ==> k == l)
    && forall k :: Waits(w, k, id) ==>
         id !in w.s.memory && (w.calls[k].Fetched? ==> w.calls[k].r == At(w.s.store, id))
  }

  lemma StepKeepsSolo(w: Shared, c: Config, step: Step, bad: set<string>, id: string)
    requires Enabled(w, c, step) && c.persist && id !in bad && Solo(w, id) && Alone(w, step, id)
    ensures Solo(Do(w, c, step, bad), id) && FreshInsert(w, step, id)
  {
    var t := Do(w, c, step, bad);
    assert FreshInsert(w, step, id) by {
      if step.DoInsert? {
        assert Waits(w, step.k, id) <==> w.calls[step.k].id == id;
      }
    }
    hide FreshInsert;
    if id !in w.s.memory && !Inserts(w, step, id) {
      StaysOut(w, c, step, bad, id);
    }
    if step.DoFetch? {
      assert w.calls[step.k].id == id ==> Waits(w, step.k, id);
    }
    if step.DoInsert? {
      assert w.calls[step.k].id == id ==> Waits(w, step.k, id);
    }
    assert forall k :: Waits(t, k, id) ==> Waits(w, k, id) || (step.DoMiss? && step.k == k);
    assert forall k :: Waits(t, k, id) && Waits(w, k, id) ==> t.calls[k] == w.calls[k] || step == DoFetch(k);
    assert forall k :: Waits(t, k, id) ==> !Inserts(w, step, id);
    hide Insert, Delete, Say, SetStatus, SetMetadata, Refresh;
  }

  /** Only an insertion brings a conversation into memory, and nothing touches the snapshot of one that is
      not there. */
  lemma StaysOut(w: Shared, c: Config, step: Step, bad: set<string>, id: string)
    requires Enabled(w, c, step) && id !in w.s.memory && !Inserts(w, step, id)
    ensures id !in Do(w, c, step, bad).s.memory && At(Do(w, c, step, bad).s.store, id) == At(w.s.store, id)
  {
    UnsavedStays(w, c, step, bad, id);
    hide Insert, Without, ExpiredIds, Distinct, Saves;
    if step.DoInsert? {
      InsertElsewhere(w, c, step, bad, id);
    }
  }

  /** As long as calls for a conversation that miss it do not overlap, and the store does not fail for it,
      memory and store agree at every moment, whatever else is interleaved. */
  lemma {:induction false} OneCallAtATimeIsClean(run: seq<Shared>, c: Config, steps: seq<Step>, bad: seq<set<string>>,
                                                 j: nat, id: string)
    requires c.persist && IsRun(run, c, steps, bad) && j < |run|
    requires Clean(run[0].s, id) && forall k :: !Waits(run[0], k, id)
    requires forall i :: 0 <= i < j ==> id !in bad[i] && Alone(run[i], steps[i], id)
    ensures Clean(run[j].s, id) && Solo(run[j], id)
  {
    hide Enabled, Do, Alone, Clean, FreshInsert, Inserts;
    if j > 0 {
      OneCallAtATimeIsClean(run, c, steps, bad, j - 1, id);
      assert run[j - 1 + 1] == Do(run[j - 1], c, steps[j - 1], bad[j - 1]);
      StepKeepsSolo(run[j - 1], c, steps[j - 1], bad[j - 1], id);
      StepKeepsCleanIff(run[j - 1], c, steps[j - 1], bad[j - 1], id);
    }
  }

  // ---------- losing memory ----------

  /** What an uninterrupted GetConversation shows of a conversation. */
  function Shown(s: State, c: Config, id: string, user: string, now: int): Record {
    Get(s, c, id, user, now, {}).memory[id]
  }

  function Discarded(s: State, active: map<string, seq<string>>): State {
    State(map[], s.store, active)
  }

  lemma ShownMeans(s: State, c: Config, id: string, user: string, now: int)
    ensures Same(Shown(s, c, id, user, now),
                 if id in s.memory then s.memory[id]
                 else if c.persist && id in s.store then s.store[id]
                 else Blank(user, now))
  {
    if id !in s.memory {
      var r := if c.persist && id in s.store then s.store[id] else Blank(user, now);
      var (lists, oldest) := Relist(s.active, user, id, c.maxConversations);
      RelistSpares(s.active, user, id, c.maxConversations);
      ArchiveAllSparesOthers(s.(memory := s.memory[id := r], active := lists), c, oldest, now, {}, id);
    }
  }

  /** What GetConversation answers: what is in memory, now active; or else what the store gives back, as it was
      saved; or else a new one that is active and empty. */
  lemma GetGives(s: State, c: Config, id: string, user: string, now: int, bad: set<string>)
    ensures Get(s, c, id, user, now, bad).memory[id] ==
            if id in s.memory then s.memory[id].(lastActive := now)
            else if c.persist && id !in bad && id in s.store then s.store[id]
            else Record(user, [], Active, map[], now, now, 0)
  {
    if id !in s.memory {
      var r := if c.persist && id !in bad && id in s.store then s.store[id] else Blank(user, now);
      var (lists, oldest) := Relist(s.active, user, id, c.maxConversations);
      RelistSpares(s.active, user, id, c.maxConversations);
      ArchiveAllSparesOthers(s.(memory := s.memory[id := r], active := lists), c, oldest, now, bad, id);
    }
  }

  /** Discarding everything in memory shows exactly when the cache and the store disagree: for any user
      and any lists of active conversations left behind, GetConversation returns the same messages, state
      and metadata if and only if they agree. */
  lemma DiscardingShowsIff(s: State, c: Config, id: string, user: string, now: int, active: map<string, seq<string>>)
    requires c.persist
    ensures Same(Shown(Discarded(s, active), c, id, user, now), Shown(s, c, id, user, now)) <==> Clean(s, id)
  {
    ShownMeans(s, c, id, user, now);
    ShownMeans(Discarded(s, active), c, id, user, now);
  }

  /** So in a run in which the store never fails for a conversation, losing memory would lose nothing of it
      at any moment exactly when every insertion of it brings what the store has at that moment. */
  lemma LosingMemoryLosesNothingIff(run: seq<Shared>, c: Config, steps: seq<Step>, bad: seq<set<string>>, j: nat,
                                    id: string, user: string, now: int, active: map<string, seq<string>>)
    requires c.persist && IsRun(run, c, steps, bad) && j < |run| && Clean(run[0].s, id)
    requires forall i :: 0 <= i < j ==> id !in bad[i]
    ensures (forall i :: 0 <= i <= j ==>
               Same(Shown(Discarded(run[i].s, active), c, id, user, now), Shown(run[i].s, c, id, user, now)))
            <==> (forall i :: 0 <= i < j ==> FreshInsert(run[i], steps[i], id))
  {
    CleanThroughoutIff(run, c, steps, bad, j, id);
    forall i | 0 <= i <= j
      ensures Same(Shown(Discarded(run[i].s, active), c, id, user, now), Shown(run[i].s, c, id, user, now))
              <==> Clean(run[i].s, id)
    {
      DiscardingShowsIff(run[i].s, c, id, user, now, active);
    }
    hide *;
  }

  /** A deleted conversation starts empty again, unless the store kept it because its delete failed: then
      the stored one comes back. */
  lemma DeletedStartsEmpty(s: State, c: Config, id: string, bad: set<string>, user: string, now: int)
    requires id in s.memory
    ensures Same(Shown(Delete(s, c, id, bad), c, id, user, now),
                 if c.persist && id in bad && id in s.store then s.store[id] else Blank(user, now))
  {
    ShownMeans(Delete(s, c, id, bad), c, id, user, now);
  }

  // ---------- bounds ----------

  ghost predicate ListOk(ids: seq<string>, c: Config) {
    && (c.maxConversations > 0 ==> |ids| <= c.maxConversations)
    && Distinct(ids)
  }

  predicate Fits(r: Record, c: Config) {
    c.maxContext > 0 ==> |r.messages| <= c.maxContext
  }

  ghost predicate Bounded(s: State, c: Config) {
    && (forall id <- s.memory :: Fits(s.memory[id], c))
    && (forall id <- s.store :: Fits(s.store[id], c))
    && (forall user <- s.active :: ListOk(s.active[user], c))
  }

  ghost predicate BoundedCalls(calls: map<nat, Call>, c: Config) {
    forall k <- calls :: calls[k].Fetched? && calls[k].r.Some? ==> Fits(calls[k].r.value, c)
  }

  lemma {:induction false} WithoutKeepsOk(ids: seq<string>, c: Config, gone: set<string>)
    requires ListOk(ids, c)
    ensures ListOk(Without(ids, gone), c)
  {
    if ids != [] {
      var n := |ids| - 1;
      WithoutKeepsOk(ids[..n], c, gone);
      WithoutMeans(ids[..n], gone);
    }
  }

  lemma {:induction false} ArchiveAllKeepsBounds(s: State, c: Config, ids: seq<string>, now: int, bad: set<string>)
    requires Bounded(s, c)
    ensures Bounded(ArchiveAll(s, c, ids, now, bad), c)
  {
    if ids != [] {
      ArchiveAllKeepsBounds(s, c, ids[..|ids| - 1], now, bad);
    }
  }

  lemma WindowKeepsOk(ids: seq<string>, c: Config, id: string)
    requires ListOk(ids, c) && id !in ids
    ensures ListOk(Window(ids + [id], c.maxConversations), c)
  {
  }

  lemma TouchKeepsBounds(s: State, c: Config, user: string, id: string, now: int, bad: set<string>)
    requires Bounded(s, c)
    ensures Bounded(Touch(s, c, user, id, now, bad), c)
  {
    var (lists, oldest) := Relist(s.active, user, id, c.maxConversations);
    if user in s.active && id !in s.active[user] {
      WindowKeepsOk(s.active[user], c, id);
    }
    assert ListOk(lists[user], c);
    hide Window, ListOk;
    assert forall u | u in s.active && u != user :: lists[u] == s.active[u];
    ArchiveAllKeepsBounds(s.(active := lists), c, oldest, now, bad);
  }

  lemma DeleteAllKeepsBounds(s: State, c: Config, gone: set<string>, bad: set<string>)
    requires Bounded(s, c) && gone <= s.memory.Keys
    ensures Bounded(DeleteAll(s, c, gone, bad), c)
  {
    forall user <- s.active {
      WithoutKeepsOk(s.active[user], c, OwnedBy(s, gone, user));
    }
    hide ListOk, Without, OwnedBy;
  }

  lemma StepKeepsBounds(w: Shared, c: Config, step: Step, bad: set<string>)
    requires Enabled(w, c, step) && Bounded(w.s, c) && BoundedCalls(w.calls, c)
    ensures Bounded(Do(w, c, step, bad).s, c) && BoundedCalls(Do(w, c, step, bad).calls, c)
  {
    hide ListOk, Touch, DeleteAll, ExpiredIds, Distinct;
    match step
    case DoInsert(k, now) =>
      var Fetched(id, user, listed, r) := w.calls[k];
      var x := Brought(r, user, listed, now);
      if listed {
        TouchKeepsBounds(w.s.(memory := w.s.memory[id := x.value]), c, user, id, now, bad);
      }
    case DoDelete(id) =>
      if id in w.s.memory {
        DeleteAllKeepsBounds(w.s, c, {id}, bad);
      }
    case DoSweep =>
      if w.sweep[0] in w.s.memory {
        DeleteAllKeepsBounds(w.s, c, {w.sweep[0]}, bad);
      }
    case _ =>
  }

  /** In every run no conversation outgrows its context, no user lists more than the maximum, and none
      lists a conversation twice. */
  lemma {:induction false} RunKeepsBounds(run: seq<Shared>, c: Config, steps: seq<Step>, bad: seq<set<string>>, i: nat)
    requires IsRun(run, c, steps, bad) && i < |run|
    requires Bounded(run[0].s, c) && BoundedCalls(run[0].calls, c)
    ensures Bounded(run[i].s, c) && BoundedCalls(run[i].calls, c)
  {
    hide Enabled, Do, Bounded, BoundedCalls;
    if i > 0 {
      RunKeepsBounds(run, c, steps, bad, i - 1);
      assert run[i - 1 + 1] == Do(run[i - 1], c, steps[i - 1], bad[i - 1]);
      StepKeepsBounds(run[i - 1], c, steps[i - 1], bad[i - 1]);
    }
  }

  /** Listing one more conversation pushes out at most one, the oldest of that user's list; if it is in
      memory it is archived, and nothing else in memory changes. */
  lemma TouchPushesOutOldest(s: State, c: Config, user: string, id: string, now: int, bad: set<string>)
    requires Bounded(s, c) && user in s.active && id !in s.active[user]
    ensures var t, ids := Touch(s, c, user, id, now, bad), s.active[user];
            if c.maxConversations > 0 && |ids| == c.maxConversations then
              && t.active == s.active[user := ids[1..] + [id]]
              && t.memory == if ids[0] in s.memory then s.memory[ids[0] := Archive(s.memory[ids[0]], now)] else s.memory
            else t.active == s.active[user := ids + [id]] && t.memory == s.memory
  {
    var ids := s.active[user];
    var all := ids + [id];
    if c.maxConversations > 0 && |ids| == c.maxConversations {
      assert all[1..] == ids[1..] + [id];
      var t := s.(active := s.active[user := all[1..]]);
      assert all[..1] == [ids[0]] && [ids[0]][..0] == [];
      assert ArchiveAll(t, c, [], now, bad) == t;
    }
  }

  // ---------- the sliding window ----------

  /** What was said in one conversation from step i to step j. */
  function Said(steps: seq<Step>, i: nat, j: nat, id: string): seq<MessageData>
    requires i <= j <= |steps|
    decreases j
  {
    if i == j then [] else
    Said(steps, i, j - 1, id) + if steps[j - 1].DoSay? && steps[j - 1].id == id then [steps[j - 1].m] else []
  }

  lemma WindowSlides<T>(xs: seq<T>, x: T, max: int)
    ensures Window(Window(xs, max) + [x], max) == Window(xs + [x], max)
  {
  }

  lemma MessagesAfterStep(w: Shared, c: Config, step: Step, bad: set<string>, id: string)
    requires Enabled(w, c, step) && id in w.s.memory && id in Do(w, c, step, bad).s.memory
    ensures Do(w, c, step, bad).s.memory[id].messages ==
            if Inserts(w, step, id) then BroughtBy(w, step, id).messages
            else if step.DoSay? && step.id == id then Window(w.s.memory[id].messages + [step.m], c.maxContext)
            else w.s.memory[id].messages
  {
    hide Insert, Without, ExpiredIds, Distinct, Window;
    if step.DoInsert? {
      if Inserts(w, step, id) {
        InsertMeans(w, c, step, bad, id);
      } else {
        InsertElsewhere(w, c, step, bad, id);
      }
    }
  }

  /** The messages in memory at step m are the last maxContext of those at step i and all said since. */
  predicate ToldAll(run: seq<Shared>, c: Config, steps: seq<Step>, i: nat, m: nat, id: string)
    requires i <= m <= |steps| < |run| && id in run[i].s.memory
  {
    && id in run[m].s.memory
    && run[m].s.memory[id].messages == Window(run[i].s.memory[id].messages + Said(steps, i, m, id), c.maxContext)
  }

  /** If the step overwrites the conversation, it is with the messages that are there. */
  predicate Harmless(w: Shared, step: Step, id: string) {
    id in w.s.memory && Inserts(w, step, id) ==> BroughtBy(w, step, id).messages == w.s.memory[id].messages
  }

  lemma ToldMore(run: seq<Shared>, c: Config, steps: seq<Step>, bad: seq<set<string>>, i: nat, m: nat, id: string)
    requires IsRun(run, c, steps, bad) && i <= m < |steps|
    requires id in run[i].s.memory && id in run[m + 1].s.memory && ToldAll(run, c, steps, i, m, id)
    ensures ToldAll(run, c, steps, i, m + 1, id) <==> Harmless(run[m], steps[m], id)
  {
    var start, said := run[i].s.memory[id].messages, Said(steps, i, m, id);
    assert Enabled(run[m], c, steps[m]) && run[m + 1] == Do(run[m], c, steps[m], bad[m]);
    MessagesAfterStep(run[m], c, steps[m], bad[m], id);
    hide Enabled, Do, Inserts, Window;
    if steps[m].DoSay? && steps[m].id == id {
      WindowSlides(start + said, steps[m].m, c.maxContext);
      assert start + (said + [steps[m].m]) == start + said + [steps[m].m];
      assert !Inserts(run[m], steps[m], id) by {
        NoInsert(run[m], steps[m], id);
      }
    } else {
      assert said + [] == said;
    }
  }

  lemma NoInsert(w: Shared, step: Step, id: string)
    requires !step.DoInsert?
    ensures !Inserts(w, step, id)
  {
  }

  /** As long as a conversation stays in memory, its messages are at every moment the last maxContext of all
      that was said in it exactly when every call that overwrites it brings the messages that are there,
      whatever happens to its state, its metadata, its users' lists or other conversations. */
  lemma {:induction false} MessagesAreTheLastSaidIff(run: seq<Shared>, c: Config, steps: seq<Step>,
                                                     bad: seq<set<string>>,
                                                     i: nat, j: nat, id: string)
    requires IsRun(run, c, steps, bad) && i <= j < |run|
    requires Bounded(run[0].s, c) && BoundedCalls(run[0].calls, c)
    requires forall m :: i <= m <= j ==> id in run[m].s.memory
    ensures (forall m :: i <= m <= j ==> ToldAll(run, c, steps, i, m, id))
            <==> (forall m :: i <= m < j ==> Harmless(run[m], steps[m], id))
    decreases j
  {
    hide Harmless, Bounded, BoundedCalls, Enabled, Do;
    assert |run| == |steps| + 1;
    if i == j {
      RunKeepsBounds(run, c, steps, bad, i);
      ToldAtStart(run, c, steps, i, id);
      hide *;
    } else {
      MessagesAreTheLastSaidIff(run, c, steps, bad, i, j - 1, id);
      hide ToldAll;
      if ToldAll(run, c, steps, i, j - 1, id) {
        ToldMore(run, c, steps, bad, i, j - 1, id);
      }
      hide *;
      if forall m :: i <= m < j ==> Harmless(run[m], steps[m], id) {
        assert ToldAll(run, c, steps, i, j, id);
      }
    }
  }

  lemma ToldAtStart(run: seq<Shared>, c: Config, steps: seq<Step>, i: nat, id: string)
    requires i <= |steps| < |run| && id in run[i].s.memory && Bounded(run[i].s, c)
    ensures ToldAll(run, c, steps, i, i, id)
  {
    var start := run[i].s.memory[id].messages;
    assert Fits(run[i].s.memory[id], c);
    assert start + Said(steps, i, i, id) == start;
  }
}
