/** The binary heap that every queue of the system stands on: container/heap's sifting, run over
    objects that carry a back-pointer to their slot.

    The first half is the algorithm on values (SiftUp, SiftDown, HeapPush, HeapPop) and what it
    guarantees.  The second half is the imperative heap: a slice of item objects that is swapped
    in place, proved against those functions. */
module BinaryHeap {
  import opened Messages

  /** A priority-queue item is ordered by (Priority, Timestamp); a delayed item by (ReadyAt, 0). */
  datatype Rank = Rank(major: int, minor: int)

  datatype Entry<+M> = Entry(payload: M, rank: Rank)

  /** Less: the smaller major key wins, and equal major keys fall back on the minor one. */
  predicate Before(a: Rank, b: Rank) {
    if a.major == b.major then a.minor < b.minor else a.major < b.major
  }

  predicate AtMost(a: Rank, b: Rank) {
    !Before(b, a)
  }

  // ---------- sifting, on values ----------

  /** (k - 1) / 2 with the division truncating toward zero, so the root is its own parent. */
  function Parent(k: nat): nat {
    if k == 0 then 0 else (k - 1) / 2
  }

  function Swap<T>(s: seq<T>, i: nat, j: nat): seq<T>
    requires i < |s| && j < |s|
  {
    s[i := s[j]][j := s[i]]
  }

  function SiftUp<M>(s: seq<Entry<M>>, j: nat): (r: seq<Entry<M>>)
    requires j < |s|
    ensures |r| == |s|
    decreases j
  {
    var i := Parent(j);
    if i == j || !Before(s[j].rank, s[i].rank) then s else SiftUp(Swap(s, i, j), i)
  }

  /** The child that heap.down compares with: the left one unless the right one is strictly less. */
  function LesserChild<M>(s: seq<Entry<M>>, i: nat, n: nat): (j: nat)
    requires 2 * i + 1 < n <= |s|
    ensures i < j < n && Parent(j) == i
    ensures forall k: nat :: 0 < k < n && Parent(k) == i ==> AtMost(s[j].rank, s[k].rank)
  {
    var left := 2 * i + 1;
    if left + 1 < n && Before(s[left + 1].rank, s[left].rank) then left + 1 else left
  }

  function SiftDown<M>(s: seq<Entry<M>>, i: nat, n: nat): (r: seq<Entry<M>>)
    requires i < |s| && n <= |s|
    ensures |r| == |s|
    decreases |s| - i
  {
    if 2 * i + 1 >= n then s else
    var j := LesserChild(s, i, n);
    if !Before(s[j].rank, s[i].rank) then s else SiftDown(Swap(s, i, j), j, n)
  }

  /** heap.Push: append, then sift the new last element up. */
  function HeapPush<M>(h: seq<Entry<M>>, e: Entry<M>): (r: seq<Entry<M>>)
    ensures |r| == |h| + 1
  {
    SiftUp(h + [e], |h|)
  }

  /** heap.Pop: swap root and last, sift the new root down among the rest, cut the last off. */
  function HeapPop<M>(h: seq<Entry<M>>): (r: (Entry<M>, seq<Entry<M>>))
    requires h != []
    ensures |r.1| == |h| - 1
  {
    var n := |h| - 1;
    var s := SiftDown(Swap(h, 0, n), 0, n);
    (s[n], s[..n])
  }

  // ---------- the heap order ----------

  /** The first n slots are in heap order. */
  ghost predicate IsHeap<M>(s: seq<Entry<M>>, n: nat)
    requires n <= |s|
  {
    forall k: nat {:trigger Parent(k)} :: 0 < k < n ==> AtMost(s[Parent(k)].rank, s[k].rank)
  }

  /** Heap order except that slot j may be smaller than its parent. */
  ghost predicate HeapButUp<M>(s: seq<Entry<M>>, j: nat)
    requires j < |s|
  {
    && (forall k: nat {:trigger Parent(k)} :: 0 < k < |s| && k != j ==> AtMost(s[Parent(k)].rank, s[k].rank))
    && (forall k: nat {:trigger Parent(k)} :: 0 < k < |s| && k != j && Parent(k) == j ==>
          AtMost(s[Parent(j)].rank, s[k].rank))
  }

  /** Heap order on the first n slots except that slot i may be larger than its children. */
  ghost predicate HeapButDown<M>(s: seq<Entry<M>>, i: nat, n: nat)
    requires i < |s| && n <= |s|
  {
    && (forall k: nat {:trigger Parent(k)} :: 0 < k < n && Parent(k) != i ==> AtMost(s[Parent(k)].rank, s[k].rank))
    && (forall k: nat {:trigger Parent(k)} :: 0 < k < n && Parent(k) == i && 0 < i ==>
          AtMost(s[Parent(i)].rank, s[k].rank))
  }

  lemma SwapPermutes<T>(s: seq<T>, i: nat, j: nat)
    requires i < |s| && j < |s|
    ensures multiset(Swap(s, i, j)) == multiset(s)
  {
  }

  lemma SwapUp<M>(s: seq<Entry<M>>, j: nat)
    requires j < |s| && HeapButUp(s, j)
    ensures var i := Parent(j);
            if i != j && Before(s[j].rank, s[i].rank) then HeapButUp(Swap(s, i, j), i) else IsHeap(s, |s|)
  {
  }

  lemma SwapDown<M>(s: seq<Entry<M>>, i: nat, n: nat)
    requires i < |s| && n <= |s| && HeapButDown(s, i, n)
    ensures if 2 * i + 1 < n && Before(s[LesserChild(s, i, n)].rank, s[i].rank)
            then HeapButDown(Swap(s, i, LesserChild(s, i, n)), LesserChild(s, i, n), n)
            else IsHeap(s, n)
  {
  }

  lemma {:induction false} SiftUpSorts<M>(s: seq<Entry<M>>, j: nat)
    requires j < |s| && HeapButUp(s, j)
    ensures IsHeap(SiftUp(s, j), |s|)
    ensures multiset(SiftUp(s, j)) == multiset(s)
    decreases j
  {
    SwapUp(s, j);
    hide HeapButUp, IsHeap;
    var i := Parent(j);
    if i != j && Before(s[j].rank, s[i].rank) {
      SwapPermutes(s, i, j);
      SiftUpSorts(Swap(s, i, j), i);
    }
  }

  lemma {:induction false} SiftDownSorts<M>(s: seq<Entry<M>>, i: nat, n: nat)
    requires i < |s| && n <= |s| && HeapButDown(s, i, n)
    ensures IsHeap(SiftDown(s, i, n), n)
    ensures multiset(SiftDown(s, i, n)) == multiset(s)
    ensures forall k :: n <= k < |s| ==> SiftDown(s, i, n)[k] == s[k]
    decreases |s| - i
  {
    SwapDown(s, i, n);
    hide HeapButDown, IsHeap, LesserChild;
    if 2 * i + 1 < n {
      var j := LesserChild(s, i, n);
      if Before(s[j].rank, s[i].rank) {
        SwapPermutes(s, i, j);
        SiftDownSorts(Swap(s, i, j), j, n);
      }
    }
  }

  lemma {:induction false} RootIsLeast<M>(s: seq<Entry<M>>, n: nat, k: nat)
    requires k < n <= |s| && IsHeap(s, n)
    ensures AtMost(s[0].rank, s[k].rank)
  {
    if k > 0 {
      RootIsLeast(s, n, Parent(k));
    }
  }

  /** A push keeps the heap order and adds exactly the new entry. */
  lemma PushAdds<M>(h: seq<Entry<M>>, e: Entry<M>)
    requires IsHeap(h, |h|)
    ensures IsHeap(HeapPush(h, e), |h| + 1)
    ensures multiset(HeapPush(h, e)) == multiset(h) + multiset{e}
  {
    SiftUpSorts(h + [e], |h|);
  }

  /** A pop keeps the heap order and takes out exactly one entry: the root, which is minimal. */
  lemma PopTakesLeast<M>(h: seq<Entry<M>>)
    requires h != [] && IsHeap(h, |h|)
    ensures var (e, rest) := HeapPop(h);
            && e == h[0]
            && IsHeap(rest, |rest|)
            && multiset(rest) + multiset{e} == multiset(h)
            && forall x <- h :: AtMost(e.rank, x.rank)
  {
    var n := |h| - 1;
    var s := Swap(h, 0, n);
    SwapPermutes(h, 0, n);
    SiftDownSorts(s, 0, n);
    var r := SiftDown(s, 0, n);
    assert r == r[..n] + [r[n]];
    forall x <- h
      ensures AtMost(h[0].rank, x.rank)
    {
      var k :| 0 <= k < |h| && h[k] == x;
      RootIsLeast(h, |h|, k);
    }
  }

  // ---------- the heap in place ----------

  /** QueueItem and DelayedItem: what is queued, its rank, and the slot it sits in (-1 once popped). */
  class HeapItem {
    const payload: Message
    const rank: Rank
    var index: int
    ghost const home: string  // the queue it was made for: an item never changes queues

    constructor (payload: Message, rank: Rank, ghost home: string)
      ensures this.payload == payload && this.rank == rank && this.home == home
    {
      this.payload, this.rank, this.index, this.home := payload, rank, 0, home;
    }
  }

  /** Every item's Index is its slot; so no item sits in two slots. */
  ghost predicate Indexed(items: seq<HeapItem>, own: set<HeapItem>)
    reads own
  {
    forall k :: 0 <= k < |items| ==> items[k] in own && items[k].index == k
  }

  /** The slice of items holds these entries, slot by slot. */
  ghost predicate Holds(items: seq<HeapItem>, h: seq<Entry<Message>>) {
    && |items| == |h|
    && forall k :: 0 <= k < |h| ==> items[k].payload == h[k].payload && items[k].rank == h[k].rank
  }

  /** Swap: exchange two slots and the two back-pointers. */
  method Exchange(items: seq<HeapItem>, i: nat, j: nat, ghost own: set<HeapItem>) returns (r: seq<HeapItem>)
    requires Indexed(items, own) && i < |items| && j < |items|
    modifies own
    ensures Indexed(r, own) && r == Swap(items, i, j)
  {
    r := Swap(items, i, j);
    r[i].index := i;
    r[j].index := j;
  }

  method Up(items: seq<HeapItem>, start: nat, ghost h: seq<Entry<Message>>, ghost own: set<HeapItem>)
    returns (r: seq<HeapItem>)
    requires Indexed(items, own) && Holds(items, h) && start < |items|
    modifies own
    ensures Indexed(r, own) && Holds(r, SiftUp(h, start))
  {
    r := items;
    var j := start;
    ghost var now := h;
    while true
      invariant 0 <= j < |r| && Indexed(r, own) && Holds(r, now)
      invariant SiftUp(now, j) == SiftUp(h, start)
      decreases j
    {
      var i := Parent(j);
      if i == j || !Before(r[j].rank, r[i].rank) {
        break;
      }
      r := Exchange(r, i, j, own);
      now := Swap(now, i, j);
      j := i;
    }
  }

  method Down(items: seq<HeapItem>, start: nat, n: nat, ghost h: seq<Entry<Message>>, ghost own: set<HeapItem>)
    returns (r: seq<HeapItem>)
    requires Indexed(items, own) && Holds(items, h) && start < |items| && n <= |items|
    modifies own
    ensures Indexed(r, own) && Holds(r, SiftDown(h, start, n))
  {
    r := items;
    var i := start;
    ghost var now := h;
    while 2 * i + 1 < n
      invariant 0 <= i < |r| == |items| && Indexed(r, own) && Holds(r, now)
      invariant SiftDown(now, i, n) == SiftDown(h, start, n)
      decreases |r| - i
    {
      var j := 2 * i + 1;
      if j + 1 < n && Before(r[j + 1].rank, r[j].rank) {
        j := j + 1;
      }
      assert j == LesserChild(now, i, n);
      if !Before(r[j].rank, r[i].rank) {
        break;
      }
      r := Exchange(r, i, j, own);
      now := Swap(now, i, j);
      i := j;
    }
  }

  /** heap.Push */
  method PushItem(items: seq<HeapItem>, item: HeapItem, ghost h: seq<Entry<Message>>, ghost own: set<HeapItem>)
    returns (r: seq<HeapItem>)
    requires Indexed(items, own) && Holds(items, h) && item !in own
    modifies own, item
    ensures Indexed(r, own + {item}) && Holds(r, HeapPush(h, Entry(item.payload, item.rank)))
  {
    item.index := |items|;
    r := Up(items + [item], |items|, h + [Entry(item.payload, item.rank)], own + {item});
  }

  /** heap.Pop */
  method PopItem(items: seq<HeapItem>, ghost h: seq<Entry<Message>>, ghost own: set<HeapItem>)
    returns (item: HeapItem, r: seq<HeapItem>)
    requires Indexed(items, own) && Holds(items, h) && items != []
    modifies own
    ensures Indexed(r, own) && Holds(r, HeapPop(h).1)
    ensures Entry(item.payload, item.rank) == HeapPop(h).0
    ensures item in own && item.index == -1
  {
    var n := |items| - 1;
    r := Exchange(items, 0, n, own);
    r := Down(r, 0, n, Swap(h, 0, n), own);
    item := r[n];
    item.index := -1;
    r := r[..n];
  }
}
