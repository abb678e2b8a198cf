/** Conversation state as a write-through cache over a store of snapshots: what each locked section of the
    state manager does, on values.  Each names the ids for which the store's calls fail. */
module Conversations {
  import opened Messages

  datatype Status = Active | Inactive | Completed | Archived | Other(name: string)

  datatype Record = Record(userId: string, messages: seq<MessageData>, status: Status, metadata: map<string, string>,
                           createdAt: int, lastActive: int, completedAt: int)

  datatype State = State(memory: map<string, Record>, store: map<string, Record>, active: map<string, seq<string>>)

  datatype Config = Config(persist: bool, maxContext: int, maxConversations: int, ttl: int, maxIdle: int)

  const START: State := State(map[], map[], map[])

  function Blank(userId: string, now: int): Record {
    Record(userId, [], Active, map[], now, now, 0)
  }

  /** The last max elements; all of them when there is no bound. */
  function Window<T>(xs: seq<T>, max: int): (r: seq<T>)
    ensures max > 0 ==> |r| <= max
  {
    if max > 0 && |xs| > max then xs[|xs| - max..] else xs
  }

  // ---------- the locked sections ----------

  function Save(s: State, c: Config, id: string, bad: set<string>): (t: State)
    requires id in s.memory
    ensures t.memory == s.memory && t.active == s.active
  {
    if c.persist && id !in bad then s.(store := s.store[id := s.memory[id]]) else s
  }

  function Put(s: State, c: Config, id: string, r: Record, bad: set<string>): State {
    Save(s.(memory := s.memory[id := r]), c, id, bad)
  }

  function Archive(r: Record, now: int): Record {
    r.(status := Archived, completedAt := now)
  }

  /** The conversations that fall out of a user's list are archived, if they are in memory. */
  function ArchiveAll(s: State, c: Config, ids: seq<string>, now: int, bad: set<string>): (t: State)
    ensures t.memory.Keys == s.memory.Keys && t.active == s.active
  {
    if ids == [] then s else
    var n := |ids| - 1;
    var t := ArchiveAll(s, c, ids[..n], now, bad);
    if ids[n] in t.memory then Put(t, c, ids[n], Archive(t.memory[ids[n]], now), bad) else t
  }

  lemma {:induction false} ArchiveAllSparesOthers(s: State, c: Config, ids: seq<string>, now: int, bad: set<string>,
                                                  id: string)
    requires id in s.memory && id !in ids
    ensures ArchiveAll(s, c, ids, now, bad).memory[id] == s.memory[id]
  {
    if ids != [] {
      ArchiveAllSparesOthers(s, c, ids[..|ids| - 1], now, bad, id);
    }
  }

  lemma {:induction false} ArchiveAllArchives(s: State, c: Config, ids: seq<string>, now: int, bad: set<string>,
                                              id: string)
    requires id in s.memory && id in ids
    ensures ArchiveAll(s, c, ids, now, bad).memory[id] == Archive(s.memory[id], now)
  {
    var n := |ids| - 1;
    if id in ids[..n] {
      ArchiveAllArchives(s, c, ids[..n], now, bad, id);
    } else {
      ArchiveAllSparesOthers(s, c, ids[..n], now, bad, id);
      assert ids == ids[..n] + [ids[n]];
    }
  }

  /** The lists with a conversation listed last for a user, and the ids beyond the limit it pushes out. */
  function Relist(active: map<string, seq<string>>, user: string, id: string, max: int)
    : (map<string, seq<string>>, seq<string>)
  {
    if user !in active then (active[user := [id]], [])
    else if id in active[user] then (active, [])
    else
      var all := active[user] + [id];
      var excess := |all| - |Window(all, max)|;
      (active[user := all[excess..]], all[..excess])
  }

  function Touch(s: State, c: Config, user: string, id: string, now: int, bad: set<string>): (t: State)
    ensures t.memory.Keys == s.memory.Keys
  {
    var (lists, oldest) := Relist(s.active, user, id, c.maxConversations);
    ArchiveAll(s.(active := lists), c, oldest, now, bad)
  }

  /** What a store call for a conversation returns. */
  function Fetch(s: State, c: Config, id: string, bad: set<string>): Option<Record> {
    if c.persist && id in s.store && id !in bad then Some(s.store[id]) else None
  }

  /** What is inserted after a store call: the loaded conversation, or else, by GetConversation, which also
      lists it, a new one. */
  function Brought(r: Option<Record>, user: string, listed: bool, now: int): Option<Record> {
    if r.None? && listed then Some(Blank(user, now)) else r
  }

  /** The insertion does not look whether the conversation has come into memory in the meantime. */
  function Insert(s: State, c: Config, id: string, user: string, r: Option<Record>, listed: bool, now: int,
                  bad: set<string>)
    : State
  {
    match Brought(r, user, listed, now)
    case None => s
    case Some(x) =>
      var t := s.(memory := s.memory[id := x]);
      if listed then Touch(t, c, user, id, now, bad) else t
  }

  function Refresh(s: State, id: string, now: int): State
    requires id in s.memory
  {
    s.(memory := s.memory[id := s.memory[id].(lastActive := now)])
  }

  /** GetConversation when nothing comes between its sections. */
  function Get(s: State, c: Config, id: string, user: string, now: int, bad: set<string>): (t: State)
    ensures id in t.memory
  {
    if id in s.memory then Refresh(s, id, now) else Insert(s, c, id, user, Fetch(s, c, id, bad), true, now, bad)
  }

  function Say(s: State, c: Config, id: string, m: MessageData, now: int, bad: set<string>): State {
    if id !in s.memory then s else
    var r := s.memory[id];
    Put(s, c, id, r.(messages := Window(r.messages + [m], c.maxContext), lastActive := now), bad)
  }

  function SetStatus(s: State, c: Config, id: string, status: Status, now: int, bad: set<string>): State {
    if id !in s.memory then s else
    var r := s.memory[id].(status := status);
    Put(s, c, id, if status == Completed || status == Archived then r.(completedAt := now) else r, bad)
  }

  function SetMetadata(s: State, c: Config, id: string, metadata: map<string, string>, bad: set<string>): State {
    if id !in s.memory then s else
    Put(s, c, id, s.memory[id].(metadata := s.memory[id].metadata + metadata), bad)
  }

  function Without(ids: seq<string>, gone: set<string>): seq<string> {
    if ids == [] then [] else
    var n := |ids| - 1;
    if ids[n] in gone then Without(ids[..n], gone) else Without(ids[..n], gone) + [ids[n]]
  }

  lemma WithoutNext(ids: seq<string>, i: nat, gone: set<string>)
    requires i < |ids|
    ensures Without(ids[..i + 1], gone) == Without(ids[..i], gone) + if ids[i] in gone then [] else [ids[i]]
  {
    assert ids[..i + 1][..i] == ids[..i];
  }

  lemma {:induction false} WithoutMeans(ids: seq<string>, gone: set<string>)
    ensures |Without(ids, gone)| <= |ids|
    ensures forall id :: id in Without(ids, gone) <==> id in ids && id !in gone
  {
    if ids != [] {
      var n := |ids| - 1;
      WithoutMeans(ids[..n], gone);
      assert ids == ids[..n] + [ids[n]];
    }
  }

  function OwnedBy(s: State, gone: set<string>, user: string): set<string>
    requires gone <= s.memory.Keys
  {
    set id | id in gone && s.memory[id].userId == user
  }

  /** Deleting conversations from memory, from their owners' lists and, where it does not fail, from the
      store. */
  function DeleteAll(s: State, c: Config, gone: set<string>, bad: set<string>): State
    requires gone <= s.memory.Keys
  {
    State(s.memory - gone,
          if c.persist then s.store - (gone - bad) else s.store,
          map user | user in s.active :: Without(s.active[user], OwnedBy(s, gone, user)))
  }

  lemma {:induction false} WithoutNone(ids: seq<string>)
    ensures Without(ids, {}) == ids
  {
    if ids != [] {
      WithoutNone(ids[..|ids| - 1]);
    }
  }

  function Unlist(active: map<string, seq<string>>, user: string, id: string): map<string, seq<string>> {
    if user in active then active[user := Without(active[user], {id})] else active
  }

  function Erase(store: map<string, Record>, c: Config, id: string, bad: set<string>): map<string, Record> {
    if c.persist && id !in bad then store - {id} else store
  }

  /** Deleting one conversation touches only its owner's list. */
  lemma DeletedLists(s: State, id: string, user: string)
    requires id in s.memory && user == s.memory[id].userId
    ensures (map u | u in s.active :: Without(s.active[u], OwnedBy(s, {id}, u)))
            == Unlist(s.active, user, id)
  {
    forall u <- s.active
      ensures Without(s.active[u], OwnedBy(s, {id}, u)) == if u == user then Without(s.active[u], {id}) else s.active[u]
    {
      if u == user {
        assert OwnedBy(s, {id}, u) == {id};
      } else {
        assert OwnedBy(s, {id}, u) == {};
        WithoutNone(s.active[u]);
      }
    }
  }

  lemma DeleteOne(s: State, c: Config, id: string, bad: set<string>)
    requires id in s.memory
    ensures var t := DeleteAll(s, c, {id}, bad);
            var user := s.memory[id].userId;
            && t.memory == s.memory - {id}
            && t.store == Erase(s.store, c, id, bad)
            && t.active == Unlist(s.active, user, id)
  {
    DeletedLists(s, id, s.memory[id].userId);
    hide Without, OwnedBy, Unlist;
    assert {id} - bad == if id in bad then {} else {id};
    assert s.store - {} == s.store;
  }

  function Delete(s: State, c: Config, id: string, bad: set<string>): State {
    if id in s.memory then DeleteAll(s, c, {id}, bad) else s
  }

  lemma DeleteNone(s: State, c: Config, bad: set<string>)
    ensures DeleteAll(s, c, {}, bad) == s
  {
    forall user <- s.active
      ensures Without(s.active[user], OwnedBy(s, {}, user)) == s.active[user]
    {
      assert OwnedBy(s, {}, user) == {};
      WithoutNone(s.active[user]);
    }
    assert s.store - ({} - bad) == s.store;
  }

  lemma {:induction false} WithoutTwice(ids: seq<string>, a: set<string>, b: set<string>)
    ensures Without(Without(ids, a), b) == Without(ids, a + b)
  {
    if ids != [] {
      var n := |ids| - 1;
      WithoutTwice(ids[..n], a, b);
      if ids[n] !in a {
        var rest := Without(ids[..n], a);
        assert (rest + [ids[n]])[..|rest|] == rest;
      }
    }
  }

  lemma ListsOneMore(s: State, t: State, gone: set<string>, id: string, user: string)
    requires gone <= s.memory.Keys && id in s.memory && id !in gone && t.memory == s.memory - gone
    requires user in s.active
    ensures Without(Without(s.active[user], OwnedBy(s, gone, user)), OwnedBy(t, {id}, user))
            == Without(s.active[user], OwnedBy(s, gone + {id}, user))
  {
    WithoutTwice(s.active[user], OwnedBy(s, gone, user), OwnedBy(t, {id}, user));
    assert OwnedBy(s, gone + {id}, user) == OwnedBy(s, gone, user) + OwnedBy(t, {id}, user);
  }

  lemma {:induction false} WithoutOne(a: seq<string>, id: string, b: seq<string>)
    requires id !in a && id !in b
    ensures Without(a + [id] + b, {id}) == a + b
  {
    var ids := a + [id] + b;
    var n := |ids| - 1;
    if b != [] {
      WithoutOne(a, id, b[..|b| - 1]);
      assert ids[..n] == a + [id] + b[..|b| - 1];
    } else {
      assert ids[..n] == a;
      WithoutAbsent(a, id);
    }
  }

  lemma {:induction false} WithoutAbsent(ids: seq<string>, id: string)
    requires id !in ids
    ensures Without(ids, {id}) == ids
  {
    if ids != [] {
      WithoutAbsent(ids[..|ids| - 1], id);
    }
  }

  /** A deleted conversation leaves its owner's list as it would be without it, in order, and no other list
      changes; nor does any other conversation. */
  lemma DeleteUnlists(s: State, c: Config, id: string, bad: set<string>, a: seq<string>, b: seq<string>)
    requires id in s.memory && s.memory[id].userId in s.active
    requires s.active[s.memory[id].userId] == a + [id] + b && id !in a && id !in b
    ensures var t := Delete(s, c, id, bad);
            && t.active == s.active[s.memory[id].userId := a + b]
            && t.memory == s.memory - {id}
            && (forall x :: x in t.store <==> x in s.store && (x == id ==> !c.persist || id in bad))
            && (forall x <- t.store :: t.store[x] == s.store[x])
  {
    DeleteOne(s, c, id, bad);
    WithoutOne(a, id, b);
    hide DeleteAll, Without;
  }

  /** Deleting one after the other is deleting together, in any order. */
  lemma DeleteOneMore(s: State, c: Config, gone: set<string>, id: string, bad: set<string>)
    requires gone <= s.memory.Keys && id in s.memory && id !in gone
    ensures var t := DeleteAll(s, c, gone, bad);
            id in t.memory && DeleteAll(t, c, {id}, bad) == DeleteAll(s, c, gone + {id}, bad)
  {
    var t, v := DeleteAll(s, c, gone, bad), DeleteAll(s, c, gone + {id}, bad);
    var u := DeleteAll(t, c, {id}, bad);
    hide Without, OwnedBy;
    forall user <- s.active
      ensures u.active[user] == v.active[user]
    {
      ListsOneMore(s, t, gone, id, user);
    }
    assert u.active == v.active;
    assert u.memory == v.memory;
    assert u.store == v.store by {
      assert s.store - (gone - bad) - ({id} - bad) == s.store - ((gone + {id}) - bad);
    }
  }

  predicate TooOld(r: Record, c: Config, now: int) {
    c.ttl > 0 && now - r.createdAt > c.ttl
  }

  predicate Idle(r: Record, c: Config, now: int) {
    c.maxIdle > 0 && now - r.lastActive > c.maxIdle
  }

  predicate LongDone(r: Record, now: int) {
    (r.status == Completed || r.status == Archived) && r.completedAt + DAY < now
  }

  predicate Expired(r: Record, c: Config, now: int) {
    TooOld(r, c, now) || Idle(r, c, now) || LongDone(r, now)
  }

  function ExpiredIds(s: State, c: Config, now: int): set<string> {
    set id | id in s.memory && Expired(s.memory[id], c, now)
  }

  predicate Loads(s: State, c: Config, id: string, bad: set<string>) {
    id !in s.memory && Fetch(s, c, id, bad).Some?
  }

  /** GetUserConversations loading listed conversations that are not in memory, with nothing in between. */
  function Load(s: State, c: Config, ids: seq<string>, bad: set<string>): State {
    s.(memory := map id | id in s.memory.Keys + s.store.Keys &&
                       (id in s.memory || (id in ids && Loads(s, c, id, bad))) ::
         if id in s.memory then s.memory[id] else s.store[id])
  }

  function LoadId(s: State, c: Config, id: string, bad: set<string>): State {
    if Loads(s, c, id, bad) then s.(memory := s.memory[id := s.store[id]]) else s
  }

  lemma LoadNone(s: State, c: Config, bad: set<string>)
    ensures Load(s, c, [], bad) == s
  {
  }

  lemma LoadOne(s: State, c: Config, ids: seq<string>, i: nat, bad: set<string>)
    requires i < |ids|
    ensures var t, u := Load(s, c, ids[..i], bad), Load(s, c, ids[..i + 1], bad);
            && (ids[i] in Missing(s, c, ids, bad) <==> ids[i] !in u.memory)
            && u == LoadId(t, c, ids[i], bad)
  {
    assert ids[..i + 1] == ids[..i] + [ids[i]];
  }

  /** The conversations GetUserConversations goes through: the listed ones, or else the stored ones. */
  function Listed(active: map<string, seq<string>>, c: Config, user: string,
                  stored: Option<seq<string>>): Option<seq<string>> {
    if user in active && active[user] != [] then Some(active[user])
    else if c.persist then stored
    else Some([])
  }

  /** Those it can neither find nor load. */
  function Missing(s: State, c: Config, ids: seq<string>, bad: set<string>): set<string> {
    set id | id in ids && id !in s.memory && !Loads(s, c, id, bad)
  }

  /** The conversation context: the most recent messages, at most limit if that is positive. */
  function Context(r: Record, limit: int): seq<MessageData> {
    Window(r.messages, limit)
  }

  /** They are the end of what was said, all of it if that is within the limit or there is none. */
  lemma ContextIsTheLatest(r: Record, limit: int)
    ensures var latest := Context(r, limit);
            && |latest| == (if limit <= 0 || |r.messages| <= limit then |r.messages| else limit)
            && latest == r.messages[|r.messages| - |latest|..]
  {
  }

  /** A conversation that a user has just got is listed last among that user's, unless it was listed before;
      one that it pushes out may not be there any more. */
  lemma GotIsListed(s: State, c: Config, id: string, user: string, now: int, bad: set<string>,
                    stored: Option<seq<string>>)
    requires id !in s.memory
    ensures var ids := Listed(Get(s, c, id, user, now, bad).active, c, user, stored);
            && ids.Some? && id in ids.value
            && (user in s.active && id in s.active[user] ==> ids.value == s.active[user])
            && (user in s.active && id !in s.active[user] ==>
                  exists n: nat :: n <= |s.active[user]| && ids.value == s.active[user][n..] + [id])
            && (user !in s.active ==> ids.value == [id])
  {
    var lists := Get(s, c, id, user, now, bad).active;
    GetLists(s, c, id, user, now, bad);
    if user in s.active && id !in s.active[user] {
      var all := s.active[user] + [id];
      var n := |all| - |Window(all, c.maxConversations)|;
      assert n <= |s.active[user]| && all[n..] == s.active[user][n..] + [id];
    }
    hide Get;
  }

  lemma GetLists(s: State, c: Config, id: string, user: string, now: int, bad: set<string>)
    requires id !in s.memory
    ensures Get(s, c, id, user, now, bad).active == Relist(s.active, user, id, c.maxConversations).0
  {
    hide Relist;
  }

  /** A user without listed conversations gets the stored ones, if there is a store. */
  lemma UnlistedAreStored(active: map<string, seq<string>>, c: Config, user: string, stored: Option<seq<string>>)
    requires user in active ==> active[user] == []
    ensures Listed(active, c, user, stored) == if c.persist then stored else Some([])
  {
  }
}
