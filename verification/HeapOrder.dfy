/** What a heap is for: popping until empty sorts, and entries of equal priority come out as they went in. */
module HeapOrder {
  import opened BinaryHeap
  import opened Collections

  // ---------- draining ----------

  /** Everything popped, in order, when popping until empty. */
  function Drain<M>(h: seq<Entry<M>>): (r: seq<Entry<M>>)
    ensures |r| == |h|
    decreases |h|
  {
    if h == [] then [] else
    var (e, rest) := HeapPop(h);
    [e] + Drain(rest)
  }

  ghost predicate Sorted<M>(s: seq<Entry<M>>) {
    forall i, j :: 0 <= i < j < |s| ==> AtMost(s[i].rank, s[j].rank)
  }

  /** Draining is a sort: a permutation of the heap in (Priority, Timestamp) order. */
  lemma {:induction false} DrainSorts<M>(h: seq<Entry<M>>)
    requires IsHeap(h, |h|)
    ensures Sorted(Drain(h))
    ensures multiset(Drain(h)) == multiset(h)
    decreases |h|
  {
    if h != [] {
      PopTakesLeast(h);
      var (e, rest) := HeapPop(h);
      DrainSorts(rest);
      var d := Drain(rest);
      forall x <- d
        ensures AtMost(e.rank, x.rank)
      {
        assert x in multiset(d) && x in multiset(h);
      }
      assert Drain(h) == [e] + d;
    }
  }

  function OfMajor<M>(e: Entry<M>, p: int): seq<Entry<M>> {
    if e.rank.major == p then [e] else []
  }

  /** The entries of one priority, in the order they occur. */
  function WithMajor<M>(s: seq<Entry<M>>, p: int): seq<Entry<M>> {
    if s == [] then [] else OfMajor(s[0], p) + WithMajor(s[1..], p)
  }

  lemma {:induction false} WithMajorMeans<M>(s: seq<Entry<M>>, p: int, x: Entry<M>)
    ensures x in WithMajor(s, p) <==> x in s && x.rank.major == p
  {
    if s != [] {
      WithMajorMeans(s[1..], p, x);
      assert x in s <==> x == s[0] || x in s[1..];
    }
  }

  ghost predicate Increasing<M>(s: seq<Entry<M>>) {
    forall i, j :: 0 <= i < j < |s| ==> s[i].rank.minor < s[j].rank.minor
  }

  /** No two positions have the same minor key. */
  ghost predicate DistinctMinors<M>(s: seq<Entry<M>>) {
    forall i, j :: 0 <= i < j < |s| ==> s[i].rank.minor != s[j].rank.minor
  }

  lemma {:induction false} SortedWithMajorIncreases<M>(s: seq<Entry<M>>, p: int)
    requires Sorted(s) && DistinctMinors(s)
    ensures Increasing(WithMajor(s, p))
  {
    if s != [] {
      SortedWithMajorIncreases(s[1..], p);
      forall x <- WithMajor(s[1..], p)
        ensures s[0].rank.major == p ==> s[0].rank.minor < x.rank.minor
      {
        WithMajorMeans(s[1..], p, x);
        var k :| 0 <= k < |s[1..]| && s[1..][k] == x;
        assert s[k + 1] == x;
      }
    }
  }

  lemma Inhabited<T>(s: seq<T>)
    ensures s == [] || exists x :: x in s
  {
    if s != [] {
      assert s[0] in s;
    }
  }

  /** The first of a timestamp-ordered sequence is not among the rest. */
  lemma IncreasingHead<M>(a: seq<Entry<M>>)
    requires Increasing(a) && a != []
    ensures Increasing(a[1..]) && forall x <- a[1..] :: a[0].rank.minor < x.rank.minor
  {
    forall x <- a[1..]
      ensures a[0].rank.minor < x.rank.minor
    {
      var k :| 0 <= k < |a[1..]| && a[1..][k] == x;
      assert a[k + 1] == x;
    }
  }

  /** Two timestamp-ordered sequences of the same entries are the same sequence. */
  lemma {:induction false} IncreasingUnique<M>(a: seq<Entry<M>>, b: seq<Entry<M>>)
    requires Increasing(a) && Increasing(b)
    requires forall x :: x in a <==> x in b
    ensures a == b
  {
    if a == [] || b == [] {
      Inhabited(a);
      Inhabited(b);
      return;
    }
    IncreasingHead(a);
    IncreasingHead(b);
    hide Increasing;
    assert a == [a[0]] + a[1..] && b == [b[0]] + b[1..];
    assert a[0] in b && b[0] in a;
    assert a[0] == b[0];
    forall x
      ensures x in a[1..] <==> x in b[1..]
    {
      assert x in a <==> x == a[0] || x in a[1..];
      assert x in b <==> x == b[0] || x in b[1..];
    }
    IncreasingUnique(a[1..], b[1..]);
  }

  lemma SomeOfIncreasingIsDistinct<M>(s: seq<Entry<M>>, d: seq<Entry<M>>)
    requires Increasing(s) && multiset(d) <= multiset(s)
    ensures DistinctMinors(d)
  {
    forall i, j | 0 <= i < j < |d|
      ensures d[i].rank.minor != d[j].rank.minor
    {
      assert d[i] in multiset(d) && d[j] in multiset(d);
      assert d[i] in s && d[j] in s;
      var k, l :| 0 <= k < |s| && 0 <= l < |s| && s[k] == d[i] && s[l] == d[j];
      if s[k].rank.minor == s[l].rank.minor {
        assert k == l;
        OccursTwice(d, i, j);
        OccursOnce(s, k);
        assert false;
      }
    }
  }

  // ---------- first in, first out ----------

  datatype HeapOp<+M> = PushOp(e: Entry<M>) | PopOp

  /** The heap after these operations from an empty one, and what has been popped, in order. */
  function Worked<M>(ops: seq<HeapOp<M>>): (seq<Entry<M>>, seq<Entry<M>>) {
    if ops == [] then ([], []) else
    var n := |ops| - 1;
    var (h, out) := Worked(ops[..n]);
    match ops[n]
    case PushOp(e) => (HeapPush(h, e), out)
    case PopOp =>
      if h == [] then (h, out) else
      var (e, rest) := HeapPop(h);
      (rest, out + [e])
  }

  function Pushed<M>(ops: seq<HeapOp<M>>): seq<Entry<M>> {
    if ops == [] then [] else
    var n := |ops| - 1;
    Pushed(ops[..n]) + if ops[n].PushOp? then [ops[n].e] else []
  }

  lemma {:induction false} WithMajorNext<M>(s: seq<Entry<M>>, e: Entry<M>, p: int)
    ensures WithMajor(s + [e], p) == WithMajor(s, p) + OfMajor(e, p)
  {
    if s == [] {
      assert s + [e] == [e] && [e][1..] == [];
    } else {
      WithMajorNext(s[1..], e, p);
      assert (s + [e])[1..] == s[1..] + [e];
    }
  }

  lemma IncreasingFront<M>(s: seq<Entry<M>>, e: Entry<M>)
    requires Increasing(s + [e])
    ensures Increasing(s) && forall x <- s :: x.rank.minor < e.rank.minor
  {
    forall x <- s
      ensures x.rank.minor < e.rank.minor
    {
      var k :| 0 <= k < |s| && s[k] == x;
      assert (s + [e])[k] == x && (s + [e])[|s|] == e;
    }
    assert forall i :: 0 <= i < |s| ==> (s + [e])[i] == s[i];
  }

  lemma IncreasingNext<M>(s: seq<Entry<M>>, e: Entry<M>)
    requires Increasing(s) && forall x <- s :: x.rank.minor < e.rank.minor
    ensures Increasing(s + [e])
  {
  }

  /** Draining a heap of distinct timestamps lists each priority by timestamp. */
  lemma DrainIncreases<M>(h: seq<Entry<M>>, all: seq<Entry<M>>, p: int)
    requires IsHeap(h, |h|) && Increasing(all) && multiset(h) <= multiset(all)
    ensures Increasing(WithMajor(Drain(h), p))
  {
    DrainSorts(h);
    SomeOfIncreasingIsDistinct(all, Drain(h));
    SortedWithMajorIncreases(Drain(h), p);
  }

  lemma DrainHas<M>(h: seq<Entry<M>>, p: int, x: Entry<M>)
    requires IsHeap(h, |h|)
    ensures x in WithMajor(Drain(h), p) <==> x in h && x.rank.major == p
  {
    DrainSorts(h);
    WithMajorMeans(Drain(h), p, x);
    assert x in multiset(h) <==> x in multiset(Drain(h));
  }

  /** What is pushed last comes out last of its priority. */
  lemma PushComesLast<M>(h: seq<Entry<M>>, all: seq<Entry<M>>, e: Entry<M>, p: int)
    requires IsHeap(h, |h|) && Increasing(all + [e]) && multiset(h) <= multiset(all)
    ensures WithMajor(Drain(HeapPush(h, e)), p) == WithMajor(Drain(h), p) + OfMajor(e, p)
  {
    hide HeapPush, IsHeap, Drain, WithMajor, Increasing;
    var h' := HeapPush(h, e);
    PushAdds(h, e);
    IncreasingFront(all, e);
    assert multiset(all + [e]) == multiset(all) + multiset{e};
    DrainIncreases(h, all, p);
    DrainIncreases(h', all + [e], p);
    var a, b := WithMajor(Drain(h'), p), WithMajor(Drain(h), p);
    forall x <- b
      ensures x.rank.minor < e.rank.minor
    {
      DrainHas(h, p, x);
      assert x in multiset(h) && x in multiset(all);
    }
    forall x
      ensures x in a <==> x in b + OfMajor(e, p)
    {
      DrainHas(h, p, x);
      DrainHas(h', p, x);
      assert x in h' <==> x in multiset(h');
      assert x in h <==> x in multiset(h);
    }
    if e.rank.major == p {
      IncreasingNext(b, e);
    } else {
      assert b + [] == b;
    }
    IncreasingUnique(a, b + OfMajor(e, p));
  }

  lemma DrainStarts<M>(h: seq<Entry<M>>, p: int)
    requires h != []
    ensures var (e, rest) := HeapPop(h);
            WithMajor(Drain(h), p) == OfMajor(e, p) + WithMajor(Drain(rest), p)
  {
    hide HeapPop;
    var (e, rest) := HeapPop(h);
    assert ([e] + Drain(rest))[1..] == Drain(rest);
  }

  /** What has been popped, then what a drain would still give, is all that was pushed: as a whole, and for
      each priority in order. */
  ghost predicate Fifo<M>(h: seq<Entry<M>>, out: seq<Entry<M>>, all: seq<Entry<M>>, p: int) {
    && IsHeap(h, |h|)
    && multiset(out) + multiset(h) == multiset(all)
    && WithMajor(out, p) + WithMajor(Drain(h), p) == WithMajor(all, p)
  }

  lemma MoveOne<T>(out: seq<T>, h: seq<T>, rest: seq<T>, e: T)
    requires multiset(h) == multiset(rest) + multiset{e}
    ensures multiset(out + [e]) + multiset(rest) == multiset(out) + multiset(h)
  {
  }

  lemma AddOne<T>(out: seq<T>, h: seq<T>, more: seq<T>, all: seq<T>, e: T)
    requires multiset(out) + multiset(h) == multiset(all) && multiset(more) == multiset(h) + multiset{e}
    ensures multiset(out) + multiset(more) == multiset(all + [e])
  {
  }

  lemma PushKeepsFifo<M>(h: seq<Entry<M>>, out: seq<Entry<M>>, all: seq<Entry<M>>, e: Entry<M>, p: int)
    requires Fifo(h, out, all, p) && Increasing(all + [e])
    ensures Fifo(HeapPush(h, e), out, all + [e], p)
  {
    hide WithMajor, HeapPush, Drain, IsHeap, Increasing;
    PushAdds(h, e);
    AddOne(out, h, HeapPush(h, e), all, e);
    PushComesLast(h, all, e, p);
    WithMajorNext(all, e, p);
    assert WithMajor(out, p) + (WithMajor(Drain(h), p) + OfMajor(e, p))
           == WithMajor(out, p) + WithMajor(Drain(h), p) + OfMajor(e, p);
  }

  lemma PopKeepsFifo<M>(h: seq<Entry<M>>, out: seq<Entry<M>>, all: seq<Entry<M>>, p: int)
    requires Fifo(h, out, all, p) && h != []
    ensures var (e, rest) := HeapPop(h); Fifo(rest, out + [e], all, p)
  {
    hide WithMajor, HeapPop, Drain, IsHeap;
    PopTakesLeast(h);
    var (e, rest) := HeapPop(h);
    MoveOne(out, h, rest, e);
    WithMajorNext(out, e, p);
    DrainStarts(h, p);
    assert WithMajor(out, p) + OfMajor(e, p) + WithMajor(Drain(rest), p)
           == WithMajor(out, p) + (OfMajor(e, p) + WithMajor(Drain(rest), p));
  }

  lemma StartsFifo<M>(p: int)
    ensures Fifo<M>([], [], [], p)
  {
  }

  /** First in, first out within a priority, however pushes and pops are mixed: if the timestamps increase
      from push to push, then what has been popped of a priority, followed by what a drain would still give
      of it, is exactly what has been pushed of it, in that order. */
  lemma FifoWithinPriority<M>(ops: seq<HeapOp<M>>, p: int)
    requires Increasing(Pushed(ops))
    ensures var (h, out) := Worked(ops);
            && multiset(out) + multiset(h) == multiset(Pushed(ops))
            && WithMajor(out, p) + WithMajor(Drain(h), p) == WithMajor(Pushed(ops), p)
  {
    RunsAreFifo(ops, p);
  }

  lemma {:induction false} RunsAreFifo<M>(ops: seq<HeapOp<M>>, p: int)
    requires Increasing(Pushed(ops))
    ensures var (h, out) := Worked(ops); Fifo(h, out, Pushed(ops), p)
  {
    hide Fifo, HeapPush, HeapPop, Increasing;
    if ops == [] {
      StartsFifo<M>(p);
      return;
    }
    var n := |ops| - 1;
    var all := Pushed(ops[..n]);
    var (h, out) := Worked(ops[..n]);
    if ops[n].PushOp? {
      IncreasingFront(all, ops[n].e);
      RunsAreFifo(ops[..n], p);
      PushKeepsFifo(h, out, all, ops[n].e, p);
    } else {
      assert all + [] == all;
      RunsAreFifo(ops[..n], p);
      if h != [] {
        PopKeepsFifo(h, out, all, p);
      }
    }
  }
}
