/** QueueManager: one bounded MultiLevelQueue per name, priority rules, batches. */
module QueueManagers {
  import opened BinaryHeap
  import opened HeapOrder
  import opened Messages
  import opened MultiLevelQueues

  datatype Rule = Rule(condition: MessageData -> bool, newPriority: int)

  /** applyPriorityRules: the first rule whose condition holds sets the priority. */
  function RulePriority(rules: seq<Rule>, d: MessageData): int {
    if rules == [] then d.priority
    else if rules[0].condition(d) then rules[0].newPriority
    else RulePriority(rules[1..], d)
  }

  lemma {:induction false} FirstMatchingRuleWins(rules: seq<Rule>, d: MessageData, k: nat)
    requires k <= |rules|
    requires forall i :: 0 <= i < k ==> !rules[i].condition(d)
    requires k < |rules| ==> rules[k].condition(d)
    ensures RulePriority(rules, d) == if k < |rules| then rules[k].newPriority else d.priority
  {
    if k > 0 {
      assert forall i :: 0 <= i < k - 1 ==> rules[1..][i] == rules[i + 1];
      FirstMatchingRuleWins(rules[1..], d, k - 1);
    }
  }

  // ---------- the manager's operations, on values ----------

  /** CreateQueue: an existing queue is left alone; a bound of 0 or less means the default bound. */
  function Create<M>(qs: Levels<M>, name: string, maxSize: int, defaultMaxSize: int): Levels<M> {
    AddLevel(qs, name, if maxSize <= 0 then defaultMaxSize else maxSize)
  }

  /** PopMessage: as MultiLevelQueue.Pop, except that a missing queue is reported as missing. */
  function Take<M>(qs: Levels<M>, name: string): (Result<M>, Levels<M>) {
    if name !in qs then (Err(QueueNotFound), qs) else PopLevel(qs, name)
  }

  /** A batch push offers the entries one by one and counts the accepted ones. */
  function OfferAll<M>(level: Level<M>, es: seq<Entry<M>>): (nat, Level<M>) {
    if es == [] then (0, level) else
    var (n, before) := OfferAll(level, es[..|es| - 1]);
    var (r, after) := PushOne(before, es[|es| - 1]);
    (if r.Ok? then n + 1 else n, after)
  }

  lemma Overwrite<K, V>(m: map<K, V>, k: K, a: V, b: V)
    ensures m[k := a][k := b] == m[k := b]
    ensures m[k := a][k] == a
  {
  }

  /** The same on the named queue among the others. */
  function OfferTo<M>(qs: Levels<M>, name: string, es: seq<Entry<M>>): (nat, Levels<M>)
    requires name in qs
  {
    var (n, level) := OfferAll(qs[name], es);
    (n, qs[name := level])
  }

  lemma OfferNone<M>(qs: Levels<M>, name: string)
    requires name in qs
    ensures OfferTo(qs, name, []) == (0, qs)
  {
    assert qs[name := qs[name]] == qs;
  }

  lemma OfferKeepsName<M>(qs: Levels<M>, name: string, es: seq<Entry<M>>)
    requires name in qs
    ensures name in OfferTo(qs, name, es).1
  {
  }

  lemma OfferToMore<M>(qs: Levels<M>, name: string, es: seq<Entry<M>>, e: Entry<M>)
    requires name in qs
    ensures var (n, before) := OfferTo(qs, name, es);
            var (r, after) := PushLevel(before, name, e);
            OfferTo(qs, name, es + [e]) == (if r.Ok? then n + 1 else n, after)
  {
    assert (es + [e])[..|es|] == es;
    var level := OfferAll(qs[name], es).1;
    Overwrite(qs, name, level, PushOne(level, e).1);
  }

  /** A batch pop pops until the count is reached or the queue is empty. */
  function TakeMany<M>(level: Level<M>, count: nat): (seq<M>, Level<M>) {
    if count == 0 then ([], level) else
    var (ms, before) := TakeMany(level, count - 1);
    var (r, after) := PopOne(before);
    match r
    case Ok(m) => (ms + [m], after)
    case Err(_) => (ms, before)
  }

  /** How many of n offered entries a queue still has room for. */
  function Room<M>(level: Level<M>, n: nat): (r: nat)
    ensures r <= n
  {
    var bound := level.maxSize;
    if bound <= 0 then n
    else if bound <= |level.heap| then 0
    else if bound - |level.heap| < n then bound - |level.heap| else n
  }

  lemma PushOneAdds<M>(level: Level<M>, e: Entry<M>)
    requires WellFormed(level)
    ensures var (r, level') := PushOne(level, e);
            && WellFormed(level')
            && if Room(level, 1) == 0 then r == Err(QueueFull) && level' == level
               else
                 && r == Ok(())
                 && |level'.heap| == |level.heap| + 1
                 && multiset(level'.heap) == multiset(level.heap) + multiset{e}
                 && level'.maxSize == level.maxSize
                 && level'.stats == level.stats.(pending := level.stats.pending + 1)
  {
    PushAdds(level.heap, e);
  }

  /** A batch push accepts exactly the longest prefix there is room for, and adds exactly that. */
  lemma {:induction false} BatchPushFillsRoom<M>(level: Level<M>, es: seq<Entry<M>>)
    requires WellFormed(level)
    ensures var k := Room(level, |es|);
            var (n, level') := OfferAll(level, es);
            && n == k
            && WellFormed(level')
            && |level'.heap| == |level.heap| + k
            && multiset(level'.heap) == multiset(level.heap) + multiset(es[..k])
            && level'.maxSize == level.maxSize
            && level'.stats == level.stats.(pending := level.stats.pending + k)
  {
    hide PushOne, WellFormed;
    if es == [] {
      assert es[..0] == [];
    } else {
      var front := es[..|es| - 1];
      BatchPushFillsRoom(level, front);
      var (n, before) := OfferAll(level, front);
      PushOneAdds(before, es[|es| - 1]);
      var k := Room(level, |es|);
      assert front[..n] == es[..n];
      if k == |es| {
        assert es[..k] == front[..n] + [es[|es| - 1]];
      }
    }
  }

  /** A new queue takes as many messages as asked for, or as many as the default if none or less than none was
      asked for, or without bound if the default is not positive either; what was there stays as it was. */
  lemma CreatedQueueHolds<M>(qs: Levels<M>, name: string, maxSize: int, defaultMaxSize: int, es: seq<Entry<M>>)
    ensures var created := Create(qs, name, maxSize, defaultMaxSize);
            && created.Keys == qs.Keys + {name}
            && (forall other <- qs :: created[other] == qs[other])
            && var n := OfferAll(created[name], es).0;
               name !in qs ==>
                 && PopLevel(created, name).0 == Err(QueueEmpty)
                 && (maxSize > 0 ==> n == if |es| <= maxSize then |es| else maxSize)
                 && (maxSize <= 0 < defaultMaxSize ==> n == if |es| <= defaultMaxSize then |es| else defaultMaxSize)
                 && (maxSize <= 0 && defaultMaxSize <= 0 ==> n == |es|)
  {
    if name !in qs {
      BatchPushFillsRoom(Create(qs, name, maxSize, defaultMaxSize)[name], es);
      hide OfferAll, IsHeap;
    }
  }

  /** A queue that is not there cannot be popped. */
  lemma TakeNamesMissing<M>(qs: Levels<M>, name: string)
    ensures Take(qs, name).0 == Err(QueueNotFound) <==> name !in qs
    ensures name !in qs ==> Take(qs, name).1 == qs
    ensures name in qs ==> Take(qs, name) == PopLevel(qs, name)
  {
    hide HeapPop;
  }

  /** Once a pop has failed, asking for more pops changes nothing. */
  lemma {:induction false} TakeManyStops<M>(level: Level<M>, i: nat, count: nat)
    requires i <= count && TakeMany(level, i).1.heap == []
    ensures TakeMany(level, count) == TakeMany(level, i)
    decreases count
  {
    if i < count {
      TakeManyStops(level, i, count - 1);
    }
  }

  lemma PopOneDrains<M>(level: Level<M>)
    requires IsHeap(level.heap, |level.heap|) && level.heap != []
    ensures var (r, level') := PopOne(level);
            && r.Ok?
            && IsHeap(level'.heap, |level'.heap|)
            && Drain(level.heap)[0].payload == r.value
            && Drain(level'.heap) == Drain(level.heap)[1..]
            && level'.stats == level.stats.(pending := level.stats.pending - 1,
                                             processing := level.stats.processing + 1)
  {
    hide HeapPop;
    PopTakesLeast(level.heap);
  }

  /** A batch pop returns the least entries in order: exactly a prefix of what a full drain would
      give, as long as asked for or as the queue is, and leaves the rest. */
  lemma {:induction false} BatchPopIsSortedPrefix<M>(level: Level<M>, count: nat)
    requires IsHeap(level.heap, |level.heap|)
    ensures var (ms, level') := TakeMany(level, count);
            var drained := Drain(level.heap);
            var k := if count < |drained| then count else |drained|;
            && |ms| == k
            && (forall i :: 0 <= i < k ==> ms[i] == drained[i].payload)
            && Drain(level'.heap) == drained[k..]
            && IsHeap(level'.heap, |level'.heap|)
            && level'.stats == level.stats.(pending := level.stats.pending - k,
                                             processing := level.stats.processing + k)
  {
    hide Drain, IsHeap, HeapPop;
    if count == 0 {
      return;
    }
    BatchPopIsSortedPrefix(level, count - 1);
    var (ms, before) := TakeMany(level, count - 1);
    var drained := Drain(level.heap);
    assert |before.heap| == |drained| - |ms|;
    if before.heap == [] {
      assert TakeMany(level, count) == (ms, before);
      hide TakeMany, PopOne;
    } else {
      PopOneDrains(before);
      var (r, after) := PopOne(before);
      assert TakeMany(level, count) == (ms + [r.value], after);
      hide TakeMany, PopOne;
      assert drained[|ms|..][0] == drained[|ms|] && drained[|ms|..][1..] == drained[|ms| + 1..];
    }
  }

  // ---------- the manager in place ----------

  /** A message's priority after the rules have looked at it n times. */
  function RulesApplied(rules: seq<Rule>, d: MessageData, n: nat): int {
    if n == 0 then d.priority else RulePriority(rules, d.(priority := RulesApplied(rules, d, n - 1)))
  }

  /** How often message k comes before position k of its batch. */
  function Earlier<M(==)>(messages: seq<M>, k: nat): nat
    requires k < |messages|
  {
    multiset(messages[..k])[messages[k]]
  }

  /** Entry k was made of message k at time k, with the priority the rules give it; a message listed more
      than once has been through the rules once more each time. */
  ghost predicate OfferedFrom(es: seq<Entry<Message>>, messages: seq<Message>, times: seq<int>, rules: seq<Rule>,
                              data: seq<MessageData>) {
    && |es| <= |messages| == |times| == |data|
    && forall k :: 0 <= k < |es| ==>
         && es[k].payload == messages[k]
         && es[k].rank == Rank(RulesApplied(rules, data[k], Earlier(messages, k) + 1), times[k])
  }

  lemma OfferedMore(es: seq<Entry<Message>>, e: Entry<Message>, messages: seq<Message>, times: seq<int>,
                    rules: seq<Rule>,
                    data: seq<MessageData>)
    requires |es| < |messages| && OfferedFrom(es, messages, times, rules, data)
    requires e.payload == messages[|es|]
    requires e.rank == Rank(RulesApplied(rules, data[|es|], Earlier(messages, |es|) + 1), times[|es|])
    ensures OfferedFrom(es + [e], messages, times, rules, data)
  {
  }

  /** After i pushes every message is as it was but for the rules applied to it. */
  ghost predicate Prepared(messages: seq<Message>, rules: seq<Rule>, data: seq<MessageData>, now: seq<MessageData>,
                           i: nat) {
    && |data| == |now| == |messages| && i <= |messages|
    && forall k :: i <= k < |messages| ==>
         now[k] == data[k].(priority := RulesApplied(rules, data[k], multiset(messages[..i])[messages[k]]))
  }

  lemma PreparedAtStart(messages: seq<Message>, rules: seq<Rule>, data: seq<MessageData>)
    requires |data| == |messages|
    ensures Prepared(messages, rules, data, data, 0)
  {
    assert messages[..0] == [];
  }

  /** Pushing message i puts it, wherever it comes again, through the rules once more. */
  lemma PreparedMore(messages: seq<Message>, rules: seq<Rule>, data: seq<MessageData>, now: seq<MessageData>,
                     next: seq<MessageData>, i: nat)
    requires i < |messages| == |next| && Prepared(messages, rules, data, now, i)
    requires forall k :: 0 <= k < |next| ==>
               next[k] == if messages[k] == messages[i] then now[k].(priority := RulePriority(rules, now[k]))
                           else now[k]
    ensures next[i].priority == RulesApplied(rules, data[i], Earlier(messages, i) + 1)
    ensures Prepared(messages, rules, data, next, i + 1)
  {
    assert messages[..i + 1] == messages[..i] + [messages[i]];
    hide RulePriority;
    forall k | i + 1 <= k < |messages|
      ensures next[k] == data[k].(priority := RulesApplied(rules, data[k], multiset(messages[..i + 1])[messages[k]]))
    {
      var n := multiset(messages[..i])[messages[k]];
      assert multiset(messages[..i + 1])[messages[k]] == if messages[k] == messages[i] then n + 1 else n;
    }
  }

  class QueueManager {
    const rules: seq<Rule>
    const defaultMaxSize: int
    const queues: MultiLevelQueue  // every managed queue is one lane of it

    ghost predicate Valid()
      reads this, queues, queues.own
    {
      queues.Valid()
    }

    constructor (rules: seq<Rule>, defaultMaxSize: int)
      ensures Valid() && fresh(queues) && queues.own == {} && queues.view == map[]
      ensures this.rules == rules && this.defaultMaxSize == defaultMaxSize
    {
      this.rules, this.defaultMaxSize := rules, defaultMaxSize;
      queues := new MultiLevelQueue(0);
    }

    method CreateQueue(name: string, maxSize: int)
      requires Valid()
      modifies queues
      ensures Valid() && queues.own == old(queues.own)
      ensures queues.view == Create(old(queues.view), name, maxSize, defaultMaxSize)
    {
      queues.AddBounded(name, if maxSize <= 0 then defaultMaxSize else maxSize);
    }

    method DeleteQueue(name: string) returns (r: Result<()>)
      requires Valid()
      modifies queues
      ensures Valid() && queues.own == old(queues.own)
      ensures r == if name in old(queues.view) then Ok(()) else Err(QueueNotFound)
      ensures queues.view == old(queues.view) - {name}
    {
      if name !in queues.lanes {
        return Err(QueueNotFound);
      }
      queues.RemoveQueue(name);
      r := Ok(());
    }

    method ApplyPriorityRules(message: Message)
      modifies message`priority
      ensures message.priority == RulePriority(rules, old(message.Data()))
    {
      ghost var d := message.Data();
      var i := 0;
      while i < |rules|
        invariant 0 <= i <= |rules| && message.Data() == d
        invariant RulePriority(rules[i..], d) == RulePriority(rules, d)
      {
        if rules[i].condition(message.Data()) {
          message.priority := rules[i].newPriority;
          break;
        }
        i := i + 1;
      }
    }

    /** The priority a message has once PushMessage has looked at it: the rules run before the
        bound is checked, but not when the queue does not exist. */
    ghost function PriorityAfter(name: string, message: Message): int
      reads queues, message
    {
      if name in queues.view then RulePriority(rules, message.Data()) else message.priority
    }

    method PushMessage(name: string, message: Message, now: int) returns (r: Result<()>)
      requires Valid()
      modifies queues, queues.own, message`priority
      ensures Valid() && fresh(queues.own - old(queues.own))
      ensures message.priority == old(PriorityAfter(name, message))
      ensures (r, queues.view) == PushLevel(old(queues.view), name, Entry(message, Rank(message.priority, now)))
    {
      if name !in queues.lanes {
        return Err(QueueNotFound);
      }
      ApplyPriorityRules(message);
      r := queues.Push(name, message, message.priority, now);
    }

    ghost function DataOf(messages: seq<Message>): (d: seq<MessageData>)
      reads messages
      ensures |d| == |messages|
    {
      if messages == [] then [] else DataOf(messages[..|messages| - 1]) + [messages[|messages| - 1].Data()]
    }

    /** One round of the batch pop, with the rest of the queues kept out of sight. */
    method PopNext(name: string, ghost before: Levels<Message>, ghost level: Level<Message>)
      returns (r: Result<Message>, ghost next: Level<Message>)
      requires Valid() && queues.view == before[name := level]
      modifies queues, queues.own
      ensures Valid() && queues.own == old(queues.own)
      ensures (r, next) == PopOne(level) && queues.view == before[name := next]
    {
      hide MultiLevelQueue.Valid, PopOne;
      r := queues.Pop(name);
      next := PopOne(level).1;
      Overwrite(before, name, level, next);
    }

    /** The batch push after i rounds: n of the entries offered so far were accepted. */
    ghost predicate Offering(name: string, before: Levels<Message>, n: nat, offered: seq<Entry<Message>>,
                             messages: seq<Message>, times: seq<int>, data: seq<MessageData>, i: nat)
      reads this, queues, messages
    {
      && |offered| == i && name in before
      && (n, queues.view) == OfferTo(before, name, offered)
      && Prepared(messages, rules, data, DataOf(messages), i)
      && OfferedFrom(offered, messages, times, rules, data)
    }

    /** One round of the batch push. */
    method PushNext(name: string, message: Message, now: int, n: nat, ghost before: Levels<Message>,
                    ghost offered: seq<Entry<Message>>, ghost messages: seq<Message>, ghost times: seq<int>,
                    ghost data: seq<MessageData>, ghost i: nat)
      returns (n': nat, ghost e: Entry<Message>)
      requires Valid() && Offering(name, before, n, offered, messages, times, data, i)
      requires i < |messages| == |times| && message == messages[i] && now == times[i]
      modifies queues, queues.own, message`priority
      ensures Valid() && fresh(queues.own - old(queues.own))
      ensures Offering(name, before, n', offered + [e], messages, times, data, i + 1)
    {
      hide Valid, PushLevel, OfferTo, Prepared, OfferedFrom, DataOf, RulesApplied, Earlier, RulePriority;
      OfferKeepsName(before, name, offered);
      ghost var was := DataOf(messages);
      AllDataOf(messages);
      var r := PushMessage(name, message, now);
      e := Entry(message, Rank(message.priority, now));
      AllDataOf(messages);
      PreparedMore(messages, rules, data, was, DataOf(messages), i);
      OfferedMore(offered, e, messages, times, rules, data);
      OfferToMore(before, name, offered, e);
      n' := if r.Ok? then n + 1 else n;
    }

    lemma DataOfAt(messages: seq<Message>, k: nat)
      requires k < |messages|
      ensures DataOf(messages)[k] == messages[k].Data()
    {
      if k < |messages| - 1 {
        DataOfAt(messages[..|messages| - 1], k);
      }
    }

    lemma AllDataOf(messages: seq<Message>)
      ensures forall k :: 0 <= k < |messages| ==> DataOf(messages)[k] == messages[k].Data()
    {
      forall k | 0 <= k < |messages|
        ensures DataOf(messages)[k] == messages[k].Data()
      {
        DataOfAt(messages, k);
      }
    }

    /** Pushes the messages one by one, skipping refusals.  The ghost result is the entries offered. */
    method BatchPushMessages(name: string, messages: seq<Message>, times: seq<int>)
      returns (r: Result<nat>, ghost offered: seq<Entry<Message>>)
      requires Valid() && |times| == |messages|
      modifies queues, queues.own, (set m | m in messages)`priority
      ensures Valid() && fresh(queues.own - old(queues.own))
      ensures name !in old(queues.view) ==> r == Err(QueueNotFound) && queues.view == old(queues.view)
      ensures name in old(queues.view) ==>
                var (n, level) := OfferAll(old(queues.view)[name], offered);
                && r == Ok(n)
                && queues.view == old(queues.view)[name := level]
                && |offered| == |messages|
                && OfferedFrom(offered, messages, times, rules, old(DataOf(messages)))
    {
      queues.SameNames();
      hide *;
      offered := [];
      if name !in queues.lanes {
        return Err(QueueNotFound), offered;
      }
      ghost var before, data := queues.view, DataOf(messages);
      StartOffering(name, messages, times);
      var n := 0;
      for i := 0 to |messages|
        invariant Valid() && fresh(queues.own - old(queues.own))
        invariant Offering(name, before, n, offered, messages, times, data, i)
      {
        ghost var e;
        n, e := PushNext(name, messages[i], times[i], n, before, offered, messages, times, data, i);
        offered := offered + [e];
      }
      Offered(name, before, n, offered, messages, times, data);
      r := Ok(n);
    }

    lemma StartOffering(name: string, messages: seq<Message>, times: seq<int>)
      requires name in queues.view && |times| == |messages|
      ensures Offering(name, queues.view, 0, [], messages, times, DataOf(messages), 0)
    {
      PreparedAtStart(messages, rules, DataOf(messages));
      OfferNone(queues.view, name);
    }

    lemma Offered(name: string, before: Levels<Message>, n: nat, offered: seq<Entry<Message>>, messages: seq<Message>,
                  times: seq<int>, data: seq<MessageData>)
      requires Offering(name, before, n, offered, messages, times, data, |messages|)
      ensures name in before && |offered| == |messages| && OfferedFrom(offered, messages, times, rules, data)
      ensures var (k, level) := OfferAll(before[name], offered); n == k && queues.view == before[name := level]
    {
    }

    method PopMessage(name: string) returns (r: Result<Message>)
      requires Valid()
      modifies queues, queues.own
      ensures Valid() && queues.own == old(queues.own)
      ensures (r, queues.view) == Take(old(queues.view), name)
    {
      if name !in queues.lanes {
        return Err(QueueNotFound);
      }
      r := queues.Pop(name);
    }

    method BatchPopMessages(name: string, count: nat) returns (r: Result<seq<Message>>)
      requires Valid()
      modifies queues, queues.own
      ensures Valid() && queues.own == old(queues.own)
      ensures name !in old(queues.view) ==> r == Err(QueueNotFound) && queues.view == old(queues.view)
      ensures name in old(queues.view) ==>
                var (ms, level) := TakeMany(old(queues.view)[name], count);
                r == Ok(ms) && queues.view == old(queues.view)[name := level]
    {
      if name !in queues.lanes {
        return Err(QueueNotFound);
      }
      hide MultiLevelQueue.Valid;
      ghost var before := queues.view;
      ghost var level := before[name];
      var result := [];
      var i := 0;
      while i < count
        invariant 0 <= i <= count
        invariant Valid() && queues.own == old(queues.own)
        invariant name in before
        invariant (result, level) == TakeMany(before[name], i)
        invariant queues.view == before[name := level]
      {
        var m;
        ghost var next;
        m, next := PopNext(name, before, level);
        if m.Err? {
          TakeManyStops(before[name], i, count);
          break;
        }
        level := next;
        result := result + [m.value];
        i := i + 1;
      }
      r := Ok(result);
    }

    method CompleteMessage(name: string)
      requires Valid()
      modifies queues
      ensures Valid() && queues.own == old(queues.own)
      ensures queues.view == CompleteLevel(old(queues.view), name)
    {
      queues.CompleteMessage(name);
    }

    method FailMessage(name: string)
      requires Valid()
      modifies queues
      ensures Valid() && queues.own == old(queues.own)
      ensures queues.view == FailLevel(old(queues.view), name)
    {
      queues.FailMessage(name);
    }
  }
}
