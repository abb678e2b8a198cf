/** What a conversation remembers of the steps since it was last inserted, and so when the cleanup finds it
    expired and what it deletes. */
module ConversationHistory {
  import opened ConversationProtocol
  import opened Conversations
  import opened Messages

  // ---------- what else a conversation remembers ----------

  /** The step makes the conversation active. */
  predicate Wakes(step: Step, id: string) {
    (step.DoRefresh? || step.DoSay?) && step.id == id
  }

  /** The step gives the conversation a status. */
  predicate Sets(step: Step, id: string) {
    step.DoSetStatus? && step.id == id
  }

  /** The status last given from step k to before step j, counting being pushed out of a list as archiving, or
      else the one there was at k. */
  function LastStatus(run: seq<Shared>, c: Config, steps: seq<Step>, k: nat, j: nat, id: string, start: Status): Status
    requires k <= j <= |steps| < |run|
    decreases j
  {
    if j == k then start
    else if Sets(steps[j - 1], id) then steps[j - 1].status
    else if id in PushedOut(run[j - 1], c, steps[j - 1]) then Archived
    else LastStatus(run, c, steps, k, j - 1, id, start)
  }

  /** When it was last completed or archived. */
  function LastDone(run: seq<Shared>, c: Config, steps: seq<Step>, k: nat, j: nat, id: string, start: int): int
    requires k <= j <= |steps| < |run|
    decreases j
  {
    if j == k then start
    else if Sets(steps[j - 1], id) && steps[j - 1].status in {Completed, Archived} then steps[j - 1].now
    else if steps[j - 1].DoInsert? && id in PushedOut(run[j - 1], c, steps[j - 1]) then steps[j - 1].now
    else LastDone(run, c, steps, k, j - 1, id, start)
  }

  /** When it was last asked for or said something in. */
  function LastUse(steps: seq<Step>, k: nat, j: nat, id: string, start: int): int
    requires k <= j <= |steps|
    decreases j
  {
    if j == k then start
    else if Wakes(steps[j - 1], id) then steps[j - 1].now
    else LastUse(steps, k, j - 1, id, start)
  }

  /** The value last given to a key of its metadata. */
  function LastValue(steps: seq<Step>, k: nat, j: nat, id: string, key: string, start: Option<string>): Option<string>
    requires k <= j <= |steps|
    decreases j
  {
    if j == k then start
    else if steps[j - 1].DoSetMetadata? && steps[j - 1].id == id && key in steps[j - 1].metadata then
      Some(steps[j - 1].metadata[key])
    else LastValue(steps, k, j - 1, id, key, start)
  }

  /** What is in memory at step j is what was there at step k with what was done to it since. */
  ghost predicate Recalls(run: seq<Shared>, c: Config, steps: seq<Step>, k: nat, j: nat, id: string, key: string)
    requires k <= j <= |steps| < |run| && id in run[k].s.memory && id in run[j].s.memory
  {
    var r, r' := run[k].s.memory[id], run[j].s.memory[id];
    && r'.status == LastStatus(run, c, steps, k, j, id, r.status)
    && r'.completedAt == LastDone(run, c, steps, k, j, id, r.completedAt)
    && r'.lastActive == LastUse(steps, k, j, id, r.lastActive)
    && At(r'.metadata, key) == LastValue(steps, k, j, id, key, At(r.metadata, key))
    && r'.createdAt == r.createdAt && r'.userId == r.userId
  }

  lemma ArchiveMeans(r: Record, now: int)
    ensures Archive(r, now) == Record(r.userId, r.messages, Archived, r.metadata, r.createdAt, r.lastActive, now)
  {
  }

  lemma StayedInMemory(w: Shared, c: Config, step: Step, bad: set<string>, id: string)
    requires Enabled(w, c, step) && !Inserts(w, step, id) && id in Do(w, c, step, bad).s.memory
    ensures id in w.s.memory
  {
    hide *;
    if id !in w.s.memory {
      StaysOut(w, c, step, bad, id);
    }
  }

  lemma InsertRecalls(w: Shared, c: Config, step: Step, bad: set<string>, id: string, key: string)
    requires Enabled(w, c, step) && step.DoInsert? && !Inserts(w, step, id)
    requires id in Do(w, c, step, bad).s.memory && id in w.s.memory
    ensures Recalls([w, Do(w, c, step, bad)], c, [step], 0, 1, id, key)
  {
    hide Do, Enabled, Same, Inserts, Clean, PushedOut, Archive, At;
    InsertElsewhere(w, c, step, bad, id);
    ArchiveMeans(w.s.memory[id], step.now);
  }

  predicate Edits(step: Step) {
    step.DoRefresh? || step.DoSay? || step.DoSetStatus? || step.DoSetMetadata?
  }

  function Edited(r: Record, c: Config, step: Step): Record {
    match step
    case DoRefresh(_, now) => r.(lastActive := now)
    case DoSay(_, m, now) => r.(messages := Window(r.messages + [m], c.maxContext), lastActive := now)
    case DoSetStatus(_, status, now) =>
      r.(status := status, completedAt := if status in {Completed, Archived} then now else r.completedAt)
    case DoSetMetadata(_, metadata) => r.(metadata := r.metadata + metadata)
    case _ => r
  }

  lemma EditMeans(w: Shared, c: Config, step: Step, bad: set<string>, id: string)
    requires Enabled(w, c, step) && Edits(step) && id in w.s.memory && id in Do(w, c, step, bad).s.memory
    ensures Do(w, c, step, bad).s.memory[id]
            == if step.id == id then Edited(w.s.memory[id], c, step) else w.s.memory[id]
  {
    hide Window;
  }

  lemma EditRecalls(w: Shared, c: Config, step: Step, bad: set<string>, id: string, key: string)
    requires Enabled(w, c, step) && Edits(step) && id in w.s.memory && id in Do(w, c, step, bad).s.memory
    ensures Recalls([w, Do(w, c, step, bad)], c, [step], 0, 1, id, key)
  {
    hide Do, Enabled, Window, PushedOut;
    EditMeans(w, c, step, bad, id);
    NothingPushedOut(w, c, step);
  }

  lemma OthersStay(w: Shared, c: Config, step: Step, bad: set<string>, id: string)
    requires Enabled(w, c, step) && !Edits(step) && !step.DoInsert?
    requires id in w.s.memory && id in Do(w, c, step, bad).s.memory
    ensures Do(w, c, step, bad).s.memory[id] == w.s.memory[id]
  {
    hide Without, ExpiredIds, Distinct;
  }

  lemma StepRecalls(w: Shared, c: Config, step: Step, bad: set<string>, id: string, key: string)
    requires Enabled(w, c, step) && !Inserts(w, step, id)
    requires id in Do(w, c, step, bad).s.memory && id in w.s.memory
    ensures Recalls([w, Do(w, c, step, bad)], c, [step], 0, 1, id, key)
  {
    hide Do, Enabled, PushedOut, Inserts;
    if step.DoInsert? {
      InsertRecalls(w, c, step, bad, id, key);
    } else if Edits(step) {
      EditRecalls(w, c, step, bad, id, key);
    } else {
      OthersStay(w, c, step, bad, id);
      NothingPushedOut(w, c, step);
    }
  }

  lemma NothingPushedOut(w: Shared, c: Config, step: Step)
    requires !step.DoInsert?
    ensures PushedOut(w, c, step) == []
  {
  }

  lemma RecallsMore(run: seq<Shared>, c: Config, steps: seq<Step>, k: nat, j: nat, id: string, key: string)
    requires k < j <= |steps| < |run| && id in run[k].s.memory && id in run[j - 1].s.memory && id in run[j].s.memory
    requires Recalls(run, c, steps, k, j - 1, id, key)
    requires Recalls([run[j - 1], run[j]], c, [steps[j - 1]], 0, 1, id, key)
    ensures Recalls(run, c, steps, k, j, id, key)
  {
    hide PushedOut, At;
  }

  /** Over whatever steps that insert nothing over a conversation: its status is the one last given, or
      archived if it was pushed out of a list after that; each key of its metadata has the value last given;
      and it was last active when it was last asked for or said something in. */
  lemma {:induction false} RecallsTheLastGiven(run: seq<Shared>, c: Config, steps: seq<Step>, bad: seq<set<string>>,
                                                k: nat, j: nat, id: string, key: string)
    requires IsRun(run, c, steps, bad) && k <= j < |run| && id in run[j].s.memory
    requires forall m :: k <= m < j ==> !Inserts(run[m], steps[m], id)
    ensures |run| == |steps| + 1 && id in run[k].s.memory && Recalls(run, c, steps, k, j, id, key)
    decreases j
  {
    if k < j {
      assert Enabled(run[j - 1], c, steps[j - 1]) && run[j - 1 + 1] == Do(run[j - 1], c, steps[j - 1], bad[j - 1]);
      hide Enabled, Do, Inserts, Recalls;
      StayedInMemory(run[j - 1], c, steps[j - 1], bad[j - 1], id);
      RecallsTheLastGiven(run, c, steps, bad, k, j - 1, id, key);
      StepRecalls(run[j - 1], c, steps[j - 1], bad[j - 1], id, key);
      RecallsMore(run, c, steps, k, j, id, key);
    }
  }

  /** So it is found expired exactly when it was created, last used, or completed or archived without having
      been given another status since, too long ago: the last means a day. */
  lemma FoundExpiredIff(run: seq<Shared>, c: Config, steps: seq<Step>, bad: seq<set<string>>, k: nat, j: nat,
                        id: string, t: int)
    requires IsRun(run, c, steps, bad) && k <= j < |run| && id in run[j].s.memory
    requires forall m :: k <= m < j ==> !Inserts(run[m], steps[m], id)
    ensures |run| == |steps| + 1 && id in run[k].s.memory
    ensures var r := run[k].s.memory[id];
            id in ExpiredIds(run[j].s, c, t)
            <==> || (c.ttl > 0 && t > r.createdAt + c.ttl)
                 || (c.maxIdle > 0 && t > LastUse(steps, k, j, id, r.lastActive) + c.maxIdle)
                 || (LastStatus(run, c, steps, k, j, id, r.status) in {Completed, Archived}
                     && t > LastDone(run, c, steps, k, j, id, r.completedAt) + 86_400_000_000_000)
  {
    hide IsRun, Inserts, LastStatus, LastDone, LastUse, LastValue;
    RecallsTheLastGiven(run, c, steps, bad, k, j, id, "");
  }

  // ---------- what the cleanup deletes ----------

  /** The step sets the conversation's status, or archives it. */
  predicate Marks(w: Shared, c: Config, step: Step, id: string) {
    (step.DoSetStatus? && step.id == id) || id in PushedOut(w, c, step)
  }

  /** The step reads its clock no earlier than this. */
  predicate NotBefore(step: Step, t: int) {
    match step
    case DoInsert(_, now) => now >= t
    case DoRefresh(_, now) => now >= t
    case DoSay(_, _, now) => now >= t
    case DoSetStatus(_, _, now) => now >= t
    case _ => true
  }

  /** What one step leaves of the three reasons to expire at time t. */
  lemma StepReasons(w: Shared, c: Config, step: Step, bad: set<string>, id: string, t: int)
    requires Enabled(w, c, step) && !Inserts(w, step, id) && NotBefore(step, t)
    requires id in Do(w, c, step, bad).s.memory
    ensures id in w.s.memory
    ensures var r, r' := w.s.memory[id], Do(w, c, step, bad).s.memory[id];
            && (TooOld(r', c, t) <==> TooOld(r, c, t))
            && (Idle(r', c, t) <==> Idle(r, c, t) && !Wakes(step, id))
            && (LongDone(r', t) <==> LongDone(r, t) && !Marks(w, c, step, id))
  {
    if id !in w.s.memory {
      StaysOut(w, c, step, bad, id);
    }
    hide Insert, Without, ExpiredIds, Distinct, Window, PushedOut;
    if step.DoInsert? {
      InsertElsewhere(w, c, step, bad, id);
    } else {
      assert id !in PushedOut(w, c, step) by {
        NothingPushedOut(w, c, step);
      }
    }
  }

  /** The conversation expires at time t for a reason it had at step k and has kept. */
  predicate StillExpired(run: seq<Shared>, c: Config, steps: seq<Step>, k: nat, j: nat, id: string, t: int)
    requires k <= j <= |steps| < |run| && id in run[k].s.memory
  {
    var r := run[k].s.memory[id];
    || TooOld(r, c, t)
    || (Idle(r, c, t) && forall m :: k <= m < j ==> !Wakes(steps[m], id))
    || (LongDone(r, t) && forall m :: k <= m < j ==> !Marks(run[m], c, steps[m], id))
  }

  /** A conversation that nothing has been inserted over since step k is expired by a clock that is behind
      the steps since exactly if it is too old, or was idle and nobody has made it active, or was long done
      and nobody has set its status or archived it anew. */
  lemma ExpiredIff(run: seq<Shared>, c: Config, steps: seq<Step>, bad: seq<set<string>>, k: nat, j: nat, id: string,
                   t: int)
    requires IsRun(run, c, steps, bad) && k <= j < |run| && id in run[j].s.memory
    requires forall m :: k <= m < j ==> !Inserts(run[m], steps[m], id) && NotBefore(steps[m], t)
    ensures id in run[k].s.memory
    ensures Expired(run[j].s.memory[id], c, t) <==> StillExpired(run, c, steps, k, j, id, t)
  {
    KeptReasons(run, c, steps, bad, k, j, id, t);
  }

  lemma {:induction false} KeptReasons(run: seq<Shared>, c: Config, steps: seq<Step>, bad: seq<set<string>>,
                                       k: nat, j: nat, id: string, t: int)
    requires IsRun(run, c, steps, bad) && k <= j < |run| && id in run[j].s.memory
    requires forall m :: k <= m < j ==> !Inserts(run[m], steps[m], id) && NotBefore(steps[m], t)
    ensures id in run[k].s.memory
    ensures var r, r' := run[k].s.memory[id], run[j].s.memory[id];
            && (TooOld(r', c, t) <==> TooOld(r, c, t))
            && (Idle(r', c, t) <==> Idle(r, c, t) && forall m :: k <= m < j ==> !Wakes(steps[m], id))
            && (LongDone(r', t) <==> LongDone(r, t) && forall m :: k <= m < j ==> !Marks(run[m], c, steps[m], id))
    decreases j
  {
    hide Enabled, Do, Inserts, NotBefore, TooOld, Idle, LongDone, Wakes, Marks;
    if k < j {
      assert run[j - 1 + 1] == Do(run[j - 1], c, steps[j - 1], bad[j - 1]);
      StepReasons(run[j - 1], c, steps[j - 1], bad[j - 1], id, t);
      KeptReasons(run, c, steps, bad, k, j - 1, id, t);
    }
  }

  lemma {:induction false} WasCollected(run: seq<Shared>, c: Config, steps: seq<Step>, bad: seq<set<string>>, j: nat,
                                        id: string)
    returns (i: nat)
    requires IsRun(run, c, steps, bad) && j < |run| && run[0].sweep == [] && id in run[j].sweep
    ensures i < j && steps[i].DoCollect? && id in ExpiredIds(run[i].s, c, steps[i].now)
  {
    assert Enabled(run[j - 1], c, steps[j - 1]) && run[j - 1 + 1] == Do(run[j - 1], c, steps[j - 1], bad[j - 1]);
    hide Insert, ExpiredIds, Delete, Say, SetStatus, SetMetadata, Distinct;
    if id in run[j - 1].sweep {
      i := WasCollected(run, c, steps, bad, j - 1, id);
    } else {
      i := j - 1;
    }
  }

  /** Just after the last insertion of the conversation before step j, or step i if there is none. */
  ghost function Since(run: seq<Shared>, steps: seq<Step>, i: nat, j: nat, id: string): (k: nat)
    requires i <= j <= |steps| < |run|
    ensures i <= k <= j && (k > i ==> Inserts(run[k - 1], steps[k - 1], id))
    ensures forall m :: k <= m < j ==> !Inserts(run[m], steps[m], id)
    decreases j
  {
    if i == j || Inserts(run[j - 1], steps[j - 1], id) then j else Since(run, steps, i, j - 1, id)
  }

  /** No clock read after a collection is behind the collector's. */
  ghost predicate Timely(steps: seq<Step>) {
    forall m, n :: 0 <= m < n < |steps| && steps[m].DoCollect? ==> NotBefore(steps[n], steps[m].now)
  }

  /** Whatever the cleanup deletes was expired by its clock when it was collected.  If it is there at all, it
      still is exactly if it was and has stayed too old, idle or long done, counting from the collection or
      from the last time something was inserted over it. */
  lemma SweepDeletesExpiredIff(run: seq<Shared>, c: Config, steps: seq<Step>, bad: seq<set<string>>, j: nat)
    returns (i: nat, k: nat)
    requires IsRun(run, c, steps, bad) && run[0].sweep == [] && Timely(steps)
    requires j < |steps| && steps[j].DoSweep?
    ensures i < j && steps[i].DoCollect? && run[j].sweep != []
    ensures var id, t := run[j].sweep[0], steps[i].now;
            && id in ExpiredIds(run[i].s, c, t)
            && id !in run[j + 1].s.memory
            && k == Since(run, steps, i, j, id)
            && (id in run[j].s.memory ==>
                  id in run[k].s.memory &&
                  (Expired(run[j].s.memory[id], c, t) <==> StillExpired(run, c, steps, k, j, id, t)))
  {
    assert Enabled(run[j], c, steps[j]) && run[j + 1] == Do(run[j], c, steps[j], bad[j]);
    var id := run[j].sweep[0];
    i := WasCollected(run, c, steps, bad, j, id);
    k := Since(run, steps, i, j, id);
    assert forall m :: k <= m < j ==> NotBefore(steps[m], steps[i].now) by {
      assert forall m :: k <= m < j && m != i ==> NotBefore(steps[m], steps[i].now);
      assert NotBefore(steps[i], steps[i].now);
    }
    hide Enabled, Do, Expired, StillExpired, Since, NotBefore, Inserts;
    if id in run[j].s.memory {
      ExpiredIff(run, c, steps, bad, k, j, id, steps[i].now);
    }
  }
}
