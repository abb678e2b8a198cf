/** The four selection strategies of the load balancer and what they owe the endpoints. */
module Selection {
  import opened Collections

  // ---------- round robin ----------

  /** The stored index may be left over from a larger set of endpoints. */
  function RoundRobinPick(index: nat, n: nat): (i: nat)
    requires n > 0
    ensures i < n
  {
    index % n
  }

  function RoundRobinNext(index: nat, n: nat): nat
    requires n > 0
  {
    (index + 1) % n
  }

  /** The stored index after k picks. */
  function IndexAfter(index: nat, n: nat, k: nat): nat
    requires n > 0
  {
    if k == 0 then index else RoundRobinNext(IndexAfter(index, n, k - 1), n)
  }

  /** How often endpoint j is picked in the first k picks. */
  function TimesPicked(index: nat, n: nat, k: nat, j: nat): nat
    requires n > 0
  {
    if k == 0 then 0
    else TimesPicked(index, n, k - 1, j) + (if RoundRobinPick(IndexAfter(index, n, k - 1), n) == j then 1 else 0)
  }

  /** k picks as full rounds plus a part of a round. */
  function Rounds(n: nat, k: nat): (p: (nat, nat))
    requires n > 0
    ensures p.1 < n
  {
    if k == 0 then (0, 0) else
    var (q, r) := Rounds(n, k - 1);
    if r + 1 == n then (q + 1, 0) else (q, r + 1)
  }

  lemma {:induction false} RoundsIsDivision(n: nat, k: nat)
    requires n > 0
    ensures var (q, r) := Rounds(n, k); k == q * n + r && q == k / n && r == k % n
  {
    if k > 0 {
      RoundsIsDivision(n, k - 1);
      var (q, r) := Rounds(n, k - 1);
      assert (q + 1) * n == q * n + n;
    }
    var (q, r) := Rounds(n, k);
    DivisionIsUnique(n, k, q, r);
  }

  lemma DivisionIsUnique(n: nat, k: nat, q: nat, r: nat)
    requires n > 0 && r < n && k == q * n + r
    ensures q == k / n && r == k % n
  {
    var d := k / n - q;
    assert k == (k / n) * n + k % n;
    assert d * n == r - k % n by {
      assert d * n == (k / n) * n - q * n;
    }
    MultipleIsFar(d, n);
  }

  lemma MultipleIsFar(d: int, n: int)
    requires n >= 0
    ensures d >= 1 ==> d * n >= n
    ensures d <= -1 ==> d * n <= -n
  {
    if d >= 1 {
      assert d * n == (d - 1) * n + n;
    } else if d <= -1 {
      assert d * n == (d + 1) * n - n;
    }
  }

  lemma SmallMod(x: nat, n: nat)
    requires n > 0
    ensures x < n ==> x % n == x
    ensures n <= x < 2 * n ==> x % n == x - n
  {
    if n <= x < 2 * n {
      DivisionIsUnique(n, x, 1, x - n);
    } else if x < n {
      DivisionIsUnique(n, x, 0, x);
    }
  }

  /** Where endpoint j comes in the rounds that start at s. */
  function Turn(s: nat, n: nat, j: nat): int {
    if j >= s then j - s else j - s + n
  }

  lemma {:induction false} PickedByRounds(index: nat, n: nat, k: nat, j: nat)
    requires n > 0 && j < n
    ensures var (q, r) := Rounds(n, k);
            var s := index % n;
            && IndexAfter(index, n, k) % n == (if s + r < n then s + r else s + r - n)
            && TimesPicked(index, n, k, j) == q + if Turn(s, n, j) < r then 1 else 0
  {
    if k > 0 {
      PickedByRounds(index, n, k - 1, j);
      var (q, r) := Rounds(n, k - 1);
      var s := index % n;
      var i := IndexAfter(index, n, k - 1);
      var p := i % n;
      NextMod(i, n);
      SmallMod(p + 1, n);
      SmallMod((i + 1) % n, n);
    }
  }

  lemma NextMod(i: nat, n: nat)
    requires n > 0
    ensures (i + 1) % n == (i % n + 1) % n
  {
    var q := i / n;
    assert i == q * n + i % n;
    SmallMod(i % n + 1, n);
    if i % n + 1 < n {
      DivisionIsUnique(n, i + 1, q, i % n + 1);
    } else {
      assert (q + 1) * n == q * n + n;
      DivisionIsUnique(n, i + 1, q + 1, 0);
    }
  }

  /** Round robin is exact: on n endpoints, from any stored index, k picks choose each endpoint
      floor(k/n) or ceiling(k/n) times. */
  lemma RoundRobinIsFair(index: nat, n: nat, k: nat, j: nat)
    requires n > 0 && j < n
    ensures k / n <= TimesPicked(index, n, k, j) <= k / n + (if k % n == 0 then 0 else 1)
  {
    PickedByRounds(index, n, k, j);
    RoundsIsDivision(n, k);
  }

  // ---------- least connections ----------

  /** The scan with its sentinel: -1 means "none yet", so a count of -1 would be overwritten. */
  function ScanLeast(conns: seq<int>): (r: (int, int))
    ensures conns == [] ==> r == (-1, -1)
    ensures conns != [] ==> 0 <= r.1 < |conns| && r.0 == conns[r.1]
  {
    if conns == [] then (-1, -1) else
    var n := |conns| - 1;
    var (least, at) := ScanLeast(conns[..n]);
    if least == -1 || conns[n] < least then (conns[n], n) else (least, at)
  }

  ghost predicate NonNegative(conns: seq<int>) {
    forall i :: 0 <= i < |conns| ==> conns[i] >= 0
  }

  /** With no negative counts the sentinel is sound: the scan finds the first least loaded. */
  lemma {:induction false} ScanFindsLeast(conns: seq<int>)
    requires NonNegative(conns) && conns != []
    ensures var at := ScanLeast(conns).1;
            && (forall i :: 0 <= i < |conns| ==> conns[at] <= conns[i])
            && (forall i :: 0 <= i < at ==> conns[at] < conns[i])
  {
    if |conns| > 1 {
      ScanFindsLeast(conns[..|conns| - 1]);
    }
  }

  /** One selection: the chosen endpoint gets one more connection. */
  function Select(conns: seq<int>): (r: seq<int>)
    requires conns != []
    ensures |r| == |conns|
  {
    var at := ScanLeast(conns).1;
    conns[at := conns[at] + 1]
  }

  function SelectMany(conns: seq<int>, k: nat): (r: seq<int>)
    requires conns != []
    ensures |r| == |conns|
  {
    if k == 0 then conns else Select(SelectMany(conns, k - 1))
  }

  /** No endpoint has more than g connections more than another. */
  ghost predicate Gap(conns: seq<int>, g: int) {
    forall i, j :: 0 <= i < |conns| && 0 <= j < |conns| ==> conns[i] - conns[j] <= g
  }

  lemma {:induction false} SelectKeepsGap(conns: seq<int>, g: int)
    requires conns != [] && NonNegative(conns) && Gap(conns, g)
    ensures NonNegative(Select(conns)) && Gap(Select(conns), if g < 1 then 1 else g)
  {
    ScanFindsLeast(conns);
  }

  /** Least connections balances: without releases the gap between the most and the least loaded
      endpoint never exceeds max(initial gap, 1). */
  lemma {:induction false} LeastConnectionsBalances(conns: seq<int>, g: int, k: nat)
    requires conns != [] && NonNegative(conns) && Gap(conns, g)
    ensures NonNegative(SelectMany(conns, k)) && Gap(SelectMany(conns, k), if g < 1 then 1 else g)
  {
    if k > 0 {
      LeastConnectionsBalances(conns, g, k - 1);
      SelectKeepsGap(SelectMany(conns, k - 1), if g < 1 then 1 else g);
    } else {
      assert forall i, j :: 0 <= i < |conns| && 0 <= j < |conns| ==> conns[i] - conns[j] <= g;
    }
  }

  /** How many connections are missing to a level. */
  function Deficit(conns: seq<int>, level: int): int {
    if conns == [] then 0 else
    var n := |conns| - 1;
    Deficit(conns[..n], level) + (level - conns[n])
  }

  lemma {:induction false} DeficitUpdate(conns: seq<int>, level: int, i: nat)
    requires i < |conns|
    ensures Deficit(conns[i := conns[i] + 1], level) == Deficit(conns, level) - 1
  {
    var n := |conns| - 1;
    if i == n {
      assert conns[i := conns[i] + 1][..n] == conns[..n];
    } else {
      DeficitUpdate(conns[..n], level, i);
      assert conns[i := conns[i] + 1][..n] == conns[..n][i := conns[i] + 1];
    }
  }

  lemma {:induction false} DeficitZero(conns: seq<int>, level: int)
    requires forall i :: 0 <= i < |conns| ==> conns[i] <= level
    ensures Deficit(conns, level) >= 0
    ensures Deficit(conns, level) == 0 <==> forall i :: 0 <= i < |conns| ==> conns[i] == level
  {
    if conns != [] {
      DeficitZero(conns[..|conns| - 1], level);
    }
  }

  lemma {:induction false} SelectManySplits(conns: seq<int>, k: nat)
    requires conns != [] && k > 0
    ensures SelectMany(conns, k) == SelectMany(Select(conns), k - 1)
  {
    if k > 1 {
      SelectManySplits(conns, k - 1);
    }
  }

  /** It also catches up: exactly as many selections as connections are missing to the level of the
      most loaded endpoint bring every endpoint to that level. */
  lemma {:induction false} LeastConnectionsLevels(conns: seq<int>, level: int, k: nat)
    requires conns != [] && NonNegative(conns)
    requires forall i :: 0 <= i < |conns| ==> conns[i] <= level
    requires k == Deficit(conns, level)
    ensures forall i :: 0 <= i < |conns| ==> SelectMany(conns, k)[i] == level
    decreases k
  {
    DeficitZero(conns, level);
    if k > 0 {
      ScanFindsLeast(conns);
      var at := ScanLeast(conns).1;
      DeficitUpdate(conns, level, at);
      LeastConnectionsLevels(Select(conns), level, k - 1);
      SelectManySplits(conns, k);
    }
  }

  // ---------- weighted random ----------

  function Effective(weight: int): int {
    if weight <= 0 then 1 else weight
  }

  function Total(weights: seq<int>): (t: nat)
    ensures t >= |weights|
  {
    if weights == [] then 0 else
    var n := |weights| - 1;
    Total(weights[..n]) + Effective(weights[n])
  }

  /** The endpoint a draw lands on: the first whose running total reaches it; the first endpoint if
      none does. */
  function Land(weights: seq<int>, draw: int, i: nat): nat
    requires i <= |weights|
    decreases |weights| - i
  {
    if i == |weights| then 0
    else if draw <= Total(weights[..i + 1]) then i
    else Land(weights, draw, i + 1)
  }

  lemma {:induction false} TotalGrows(weights: seq<int>, i: nat, j: nat)
    requires i < j <= |weights|
    ensures Total(weights[..i]) + Effective(weights[i]) <= Total(weights[..j])
    ensures Total(weights[..i + 1]) == Total(weights[..i]) + Effective(weights[i])
    decreases j
  {
    assert weights[..i + 1][..i] == weights[..i];
    if i + 1 < j {
      TotalGrows(weights, i, j - 1);
      assert weights[..j][..j - 1] == weights[..j - 1];
    }
  }

  lemma {:induction false} LandFrom(weights: seq<int>, draw: int, i: nat, j: nat)
    requires i <= j < |weights| && Total(weights[..i]) < draw
    requires Total(weights[..j]) < draw <= Total(weights[..j + 1])
    ensures Land(weights, draw, i) == j
    decreases j - i
  {
    if i < j {
      if i + 1 < j {
        TotalGrows(weights, i + 1, j);
      }
      LandFrom(weights, draw, i + 1, j);
    }
  }

  /** Weighted random is exact: a draw from 1 to the total lands on endpoint j exactly when it falls
      in that endpoint's own interval, whose length is its weight (at least 1). */
  lemma LandsInOwnInterval(weights: seq<int>, draw: int, j: nat)
    requires j < |weights| && 1 <= draw <= Total(weights)
    ensures Land(weights, draw, 0) == j <==> Total(weights[..j]) < draw <= Total(weights[..j]) + Effective(weights[j])
  {
    TotalGrows(weights, j, j + 1);
    if Total(weights[..j]) < draw <= Total(weights[..j + 1]) {
      LandFrom(weights, draw, 0, j);
    } else {
      var l := FindInterval(weights, draw);
      LandFrom(weights, draw, 0, l);
    }
  }

  lemma {:induction false} FindInterval(weights: seq<int>, draw: int) returns (l: nat)
    requires 1 <= draw <= Total(weights)
    ensures l < |weights| && Total(weights[..l]) < draw <= Total(weights[..l + 1])
  {
    var n := |weights| - 1;
    assert weights[..n + 1] == weights;
    if draw > Total(weights[..n]) {
      l := n;
    } else {
      l := FindInterval(weights[..n], draw);
      assert weights[..n][..l] == weights[..l] && weights[..n][..l + 1] == weights[..l + 1];
    }
  }

  /** The draws that land on endpoint j. */
  ghost function DrawsOf(weights: seq<int>, j: nat): set<int> {
    set d | 1 <= d <= Total(weights) && Land(weights, d, 0) == j
  }

  /** Exactly max(1, weight) of the draws choose each endpoint, and none falls through to the
      fallback. */
  lemma WeightedRandomIsExact(weights: seq<int>, j: nat)
    requires j < |weights|
    ensures |DrawsOf(weights, j)| == if weights[j] > 1 then weights[j] else 1
  {
    TotalGrows(weights, j, |weights|);
    assert weights[..|weights|] == weights;
    var lo := Total(weights[..j]) + 1;
    var all := Interval(lo, lo + Effective(weights[j]));
    forall d
      ensures d in DrawsOf(weights, j) <==> d in all
    {
      if 1 <= d <= Total(weights) {
        LandsInOwnInterval(weights, d, j);
      }
    }
    assert DrawsOf(weights, j) == all;
  }
}
