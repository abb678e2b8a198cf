/** The state manager itself: conversation objects in memory, the users' lists, and the store as a map of
    snapshots.  Each locked section is a method, proved against its function in Conversations. */
module StateManagers {
  import opened Conversations
  import opened Messages

  class Conversation {
    const id: string
    const userId: string
    const createdAt: int
    var messages: seq<MessageData>
    var status: Status
    var metadata: map<string, string>
    var lastActive: int
    var completedAt: int

    constructor (id: string, r: Record)
      ensures this.id == id && Data() == r
    {
      this.id, userId, createdAt := id, r.userId, r.createdAt;
      messages, status, metadata := r.messages, r.status, r.metadata;
      lastActive, completedAt := r.lastActive, r.completedAt;
    }

    function Data(): Record
      reads this
    {
      Record(userId, messages, status, metadata, createdAt, lastActive, completedAt)
    }
  }

  function Ids(cs: seq<Conversation>): (r: seq<string>)
    ensures |r| == |cs|
  {
    if cs == [] then [] else Ids(cs[..|cs| - 1]) + [cs[|cs| - 1].id]
  }

  lemma {:induction false} IdsNext(a: seq<Conversation>, b: seq<Conversation>)
    ensures Ids(a + b) == Ids(a) + Ids(b)
  {
    if b == [] {
      assert a + b == a;
    } else {
      var n := |b| - 1;
      IdsNext(a, b[..n]);
      assert (a + b)[..|a + b| - 1] == a + b[..n];
    }
  }

  datatype Deletion = NotFound | Deleted | StoreFailed

  class StateManager {
    const c: Config
    var conversations: map<string, Conversation>
    var active: map<string, seq<string>>
    var store: map<string, Record>
    ghost var own: set<Conversation>

    ghost predicate Valid()
      reads `conversations, `own
    {
      forall id <- conversations :: conversations[id].id == id && conversations[id] in own
    }

    ghost function Memory(): (m: map<string, Record>)
      requires Valid()
      reads `conversations, `own, own
      ensures m.Keys == conversations.Keys
      ensures forall id <- conversations :: m[id] == conversations[id].Data()
    {
      map id | id in conversations :: conversations[id].Data()
    }

    ghost function View(): State
      requires Valid()
      reads this, own
    {
      State(Memory(), store, active)
    }

    constructor (c: Config)
      ensures Valid() && View() == START && this.c == c
    {
      this.c, conversations, active, store, own := c, map[], map[], map[], {};
    }

    /** Changing one conversation object in place changes one record. */
    twostate lemma Edited(id: string)
      requires old(Valid()) && conversations == old(conversations) && own == old(own) && id in conversations
      requires forall o <- own :: o != conversations[id] ==> unchanged(o)
      ensures Valid() && Memory() == old(Memory())[id := conversations[id].Data()]
    {
      hide Memory;
      forall x | x in conversations && x != id
        ensures conversations[x] != conversations[id]
      {
        assert conversations[x].id == x && conversations[id].id == id;
      }
      assert Memory() == old(Memory())[id := conversations[id].Data()];
    }

    method Persist(id: string, bad: set<string>)
      requires Valid() && id in conversations
      modifies `store
      ensures Valid() && View() == Save(old(View()), c, id, bad)
    {
      hide Memory;
      if c.persist && id !in bad {
        store := store[id := conversations[id].Data()];
      }
    }

    /** Puts a conversation under its id in memory, over the one that may be there. */
    method Keep(conv: Conversation)
      requires Valid()
      modifies `conversations, `own
      ensures Valid() && own == old(own) + {conv} && conversations == old(conversations)[conv.id := conv]
      ensures View() == old(View()).(memory := old(View()).memory[conv.id := conv.Data()])
    {
      hide Memory;
      conversations, own := conversations[conv.id := conv], own + {conv};
      assert Memory() == old(Memory())[conv.id := conv.Data()];
    }

    method ArchiveConversation(id: string, now: int, bad: set<string>)
      requires Valid() && id in conversations
      modifies own, `store
      ensures Valid()
      ensures View() == Put(old(View()), c, id, Archive(old(View()).memory[id], now), bad)
    {
      hide Memory, Save;
      var conv := conversations[id];
      conv.status, conv.completedAt := Archived, now;
      Edited(id);
      Persist(id, bad);
    }

    method ArchiveOldest(oldest: seq<string>, now: int, bad: set<string>)
      requires Valid()
      modifies own, `store
      ensures Valid()
      ensures View() == ArchiveAll(old(View()), c, oldest, now, bad)
    {
      hide Memory, Put, Archive;
      ghost var start := View();
      var k := 0;
      assert oldest[..0] == [];
      while k < |oldest|
        invariant 0 <= k <= |oldest| && Valid()
        invariant View() == ArchiveAll(start, c, oldest[..k], now, bad)
      {
        assert oldest[..k + 1][..k] == oldest[..k];
        if oldest[k] in conversations {
          ArchiveConversation(oldest[k], now, bad);
        }
        k := k + 1;
      }
      assert oldest[..k] == oldest;
    }

    static method Listing(active: map<string, seq<string>>, user: string, id: string, max: int)
      returns (lists: map<string, seq<string>>, oldest: seq<string>)
      ensures (lists, oldest) == Relist(active, user, id, max)
    {
      if user !in active {
        return active[user := [id]], [];
      }
      var ids := active[user];
      var i := 0;
      while i < |ids|
        invariant 0 <= i <= |ids| && id !in ids[..i]
      {
        if ids[i] == id {
          return active, [];
        }
        i := i + 1;
      }
      var all := ids + [id];
      if max > 0 && |all| > max {
        var excess := |all| - max;
        return active[user := all[excess..]], all[..excess];
      }
      assert all[0..] == all && all[..0] == [];
      return active[user := all], [];
    }

    method AddToActiveUsers(user: string, id: string, now: int, bad: set<string>)
      requires Valid()
      modifies own, `active, `store
      ensures Valid() && View() == Touch(old(View()), c, user, id, now, bad)
    {
      ghost var relisted := Relist(active, user, id, c.maxConversations);
      assert Touch(View(), c, user, id, now, bad) == ArchiveAll(View().(active := relisted.0), c, relisted.1, now, bad);
      hide *;
      var lists, oldest := Listing(active, user, id, c.maxConversations);
      active := lists;
      Relisted();
      ArchiveOldest(oldest, now, bad);
    }

    /** Changing the lists shows in nothing else. */
    twostate lemma Relisted()
      requires old(Valid()) && conversations == old(conversations) && own == old(own) && store == old(store)
      requires forall o <- own :: unchanged(o)
      ensures Valid() && View() == old(View()).(active := active)
    {
      hide Memory;
      assert Memory() == old(Memory());
    }

    /** Stamps a conversation found earlier.  If it has been deleted or replaced since, nothing shows. */
    method RefreshConversation(conv: Conversation, now: int)
      requires Valid() && conv in own
      modifies conv`lastActive
      ensures Valid()
      ensures View() == if conv.id in conversations && conversations[conv.id] == conv
                        then Refresh(old(View()), conv.id, now)
                        else old(View())
    {
      hide Memory;
      conv.lastActive := now;
      if conv.id in conversations && conversations[conv.id] == conv {
        Edited(conv.id);
      } else {
        assert Memory() == old(Memory());
      }
    }

    method LoadConversation(id: string, bad: set<string>) returns (r: Option<Record>)
      requires Valid()
      ensures r == Fetch(View(), c, id, bad)
    {
      r := if c.persist && id in store && id !in bad then Some(store[id]) else None;
    }

    /** The last section of GetConversation. */
    method InsertListed(conv: Conversation, user: string, now: int, bad: set<string>)
      requires Valid()
      modifies this, own, conv
      ensures Valid() && own == old(own) + {conv}
      ensures View() == Insert(old(View()), c, conv.id, user, Some(old(conv.Data())), true, now, bad)
      ensures conversations == old(conversations)[conv.id := conv]
    {
      hide Memory, Touch;
      Keep(conv);
      AddToActiveUsers(user, conv.id, now, bad);
    }

    /** All sections with nothing in between. */
    method GetConversation(id: string, user: string, now: int, bad: set<string>) returns (conv: Conversation)
      requires Valid()
      modifies this, own
      ensures Valid() && fresh(own - old(own))
      ensures View() == Get(old(View()), c, id, user, now, bad)
      ensures id in conversations && conversations[id] == conv
    {
      hide Memory, Insert;
      if id in conversations {
        conv := conversations[id];
        RefreshConversation(conv, now);
        return;
      }
      var r := LoadConversation(id, bad);
      InsertsEither(View(), id, user, r, now, bad);
      conv := new Conversation(id, if r.Some? then r.value else Blank(user, now));
      assert View() == old(View());
      InsertListed(conv, user, now, bad);
    }

    lemma InsertsEither(s: State, id: string, user: string, r: Option<Record>, now: int, bad: set<string>)
      ensures Insert(s, c, id, user, r, true, now, bad)
              == Insert(s, c, id, user, Some(if r.Some? then r.value else Blank(user, now)), true, now, bad)
    {
    }

    method AddMessage(id: string, m: MessageData, now: int, bad: set<string>) returns (found: bool)
      requires Valid()
      modifies own, `store
      ensures Valid() && (found <==> id in old(conversations))
      ensures View() == Say(old(View()), c, id, m, now, bad)
    {
      hide Memory, Save;
      if id !in conversations {
        return false;
      }
      var conv := conversations[id];
      var messages := conv.messages + [m];
      if c.maxContext > 0 && |messages| > c.maxContext {
        var excess := |messages| - c.maxContext;
        messages := messages[excess..];
      }
      conv.messages, conv.lastActive := messages, now;
      Edited(id);
      Persist(id, bad);
      found := true;
    }

    method UpdateConversationState(id: string, status: Status, now: int, bad: set<string>) returns (found: bool)
      requires Valid()
      modifies own, `store
      ensures Valid() && (found <==> id in old(conversations))
      ensures View() == SetStatus(old(View()), c, id, status, now, bad)
    {
      hide Memory, Save;
      if id !in conversations {
        return false;
      }
      var conv := conversations[id];
      conv.status := status;
      if status == Completed || status == Archived {
        conv.completedAt := now;
      }
      Edited(id);
      Persist(id, bad);
      found := true;
    }

    method UpdateConversationMetadata(id: string, metadata: map<string, string>, bad: set<string>) returns (found: bool)
      requires Valid()
      modifies own, `store
      ensures Valid() && (found <==> id in old(conversations))
      ensures View() == SetMetadata(old(View()), c, id, metadata, bad)
    {
      hide Memory, Save;
      if id !in conversations {
        return false;
      }
      var conv := conversations[id];
      conv.metadata := conv.metadata + metadata;
      Edited(id);
      Persist(id, bad);
      found := true;
    }

    method GetConversationContext(id: string, limit: int) returns (r: Option<seq<MessageData>>)
      requires Valid()
      ensures r == if id in conversations then Some(Context(View().memory[id], limit)) else None
    {
      if id !in conversations {
        return None;
      }
      var messages := conversations[id].messages;
      if 0 < limit < |messages| {
        return Some(messages[|messages| - limit..]);
      }
      r := Some(messages);
    }

    static method RemoveId(active: map<string, seq<string>>, user: string, id: string)
      returns (r: map<string, seq<string>>)
      ensures r == Unlist(active, user, id)
    {
      if user !in active {
        return active;
      }
      var ids := active[user];
      var kept: seq<string> := [];
      var i := 0;
      while i < |ids|
        invariant 0 <= i <= |ids| && kept == Without(ids[..i], {id})
      {
        assert ids[..i + 1][..i] == ids[..i];
        if ids[i] != id {
          kept := kept + [ids[i]];
        }
        i := i + 1;
      }
      assert ids[..i] == ids;
      r := active[user := kept];
    }

    /** Forgetting one conversation object takes one record out of memory. */
    twostate lemma Forgotten(id: string)
      requires old(Valid()) && conversations == old(conversations) - {id} && own == old(own)
      requires forall o <- own :: unchanged(o)
      ensures Valid() && Memory() == old(Memory()) - {id}
    {
      hide Memory;
      assert Memory() == old(Memory()) - {id};
    }

    method DeleteConversation(id: string, bad: set<string>) returns (r: Deletion)
      requires Valid()
      modifies `conversations, `active, `store
      ensures Valid()
      ensures r.NotFound? <==> id !in old(conversations)
      ensures r.StoreFailed? <==> id in old(conversations) && c.persist && id in bad
      ensures View() == Delete(old(View()), c, id, bad)
    {
      hide Memory, DeleteAll, Unlist;
      if id !in conversations {
        return NotFound;
      }
      DeleteOne(View(), c, id, bad);
      var lists := RemoveId(active, conversations[id].userId, id);
      var stored := if c.persist && id !in bad then store - {id} else store;
      conversations, active, store := conversations - {id}, lists, stored;
      Forgotten(id);
      r := if c.persist && id in bad then StoreFailed else Deleted;
    }

    method FindExpired(now: int) returns (expired: seq<string>)
      requires Valid()
      ensures forall id :: id in expired <==> id in ExpiredIds(View(), c, now)
      ensures forall i, j :: 0 <= i < j < |expired| ==> expired[i] != expired[j]
    {
      hide Memory;
      expired := [];
      var todo := conversations.Keys;
      while todo != {}
        invariant todo <= conversations.Keys
        invariant forall id :: id in expired <==> id !in todo && id in conversations && Expired(Memory()[id], c, now)
        invariant forall i, j :: 0 <= i < j < |expired| ==> expired[i] != expired[j]
        decreases |todo|
      {
        var id :| id in todo;
        if Expired(conversations[id].Data(), c, now) {
          expired := expired + [id];
        }
        todo := todo - {id};
      }
    }

    /** Finds the expired conversations in whatever order the map is walked, then deletes them one by one. */
    method CleanupExpiredConversations(now: int, bad: set<string>)
      requires Valid()
      modifies `conversations, `active, `store
      ensures Valid()
      ensures View() == DeleteAll(old(View()), c, ExpiredIds(old(View()), c, now), bad)
    {
      var expired := FindExpired(now);
      assert forall id <- expired :: id in conversations;
      hide Memory, DeleteAll, ExpiredIds;
      ghost var before := View();
      ghost var gone: set<string> := {};
      DeleteNone(before, c, bad);
      var k := 0;
      while k < |expired|
        invariant 0 <= k <= |expired| && Valid()
        invariant gone <= before.memory.Keys && forall id :: id in gone <==> id in expired[..k]
        invariant View() == DeleteAll(before, c, gone, bad)
      {
        DeleteOneMore(before, c, gone, expired[k], bad);
        var r := DeleteConversation(expired[k], bad);
        gone, k := gone + {expired[k]}, k + 1;
      }
      assert gone == ExpiredIds(before, c, now);
    }

    /** The conversations are the ones in memory under their ids. */
    ghost predicate Live(cs: seq<Conversation>)
      reads `conversations
    {
      forall conv <- cs :: conv.id in conversations && conversations[conv.id] == conv
    }

    method LoadNext(id: string, bad: set<string>, ghost known: seq<Conversation>) returns (r: seq<Conversation>)
      requires Valid() && Live(known)
      modifies `conversations, `own
      ensures Valid() && fresh(own - old(own))
      ensures View() == LoadId(old(View()), c, id, bad)
      ensures Ids(r) == if id in View().memory then [id] else []
      ensures Live(known + r)
    {
      hide Memory;
      if id !in conversations {
        var loaded := LoadConversation(id, bad);
        if loaded.Some? {
          ghost var before := View();
          var conv := new Conversation(id, loaded.value);
          assert View() == before;
          Keep(conv);
        }
      }
      r := if id in conversations then [conversations[id]] else [];
    }

    method LoadListed(ids: seq<string>, bad: set<string>) returns (r: seq<Conversation>)
      requires Valid()
      modifies `conversations, `own
      ensures Valid() && fresh(own - old(own))
      ensures View() == Load(old(View()), c, ids, bad)
      ensures Live(r)
      ensures Ids(r) == Without(ids, Missing(old(View()), c, ids, bad))
    {
      ghost var before, gone := View(), Missing(View(), c, ids, bad);
      LoadNone(before, c, bad);
      assert Ids([]) == Without(ids[..0], gone) && Live([]);
      hide *;
      r := [];
      var i := 0;
      while i < |ids|
        invariant 0 <= i <= |ids| && Valid() && fresh(own - old(own))
        invariant View() == Load(before, c, ids[..i], bad)
        invariant Live(r)
        invariant Ids(r) == Without(ids[..i], gone)
      {
        LoadOne(before, c, ids, i, bad);
        WithoutNext(ids, i, gone);
        var next := LoadNext(ids[i], bad, r);
        IdsNext(r, next);
        r, i := r + next, i + 1;
      }
      assert ids[..i] == ids;
    }

    /** The user's listed conversations, or those the store lists for the user if none are; what is not in
        memory is loaded, without listing it. */
    method GetUserConversations(user: string, stored: Option<seq<string>>, bad: set<string>)
      returns (r: Option<seq<Conversation>>)
      requires Valid()
      modifies `conversations, `own
      ensures Valid() && fresh(own - old(own))
      ensures var ids := Listed(old(active), c, user, stored);
              if ids.None? then r.None? && View() == old(View())
              else && View() == Load(old(View()), c, ids.value, bad)
                   && r.Some? && Live(r.value)
                   && Ids(r.value) == Without(ids.value, Missing(old(View()), c, ids.value, bad))
    {
      hide Memory, Load, Missing, Listed;
      var ids := Listed(active, c, user, stored);
      if ids.None? {
        return None;
      }
      var conversations := LoadListed(ids.value, bad);
      r := Some(conversations);
    }
  }
}
