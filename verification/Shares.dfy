/**
 How one connection budget is split over the active files, oldest admission first
 (pkg/sched/autotune.go): the usable parallelism of a file, the greedy split, and its
 exactness and optimality.
 */
module Shares {
  import opened Base

  /** A file being downloaded; `order` counts admissions. */
  datatype ActiveFile = ActiveFile(order: nat, blockSize: int, remaining: nat, conns: nat)

  /** One connection per remaining block, at least one, at most lim. */
  function UsableConns(af: ActiveFile, lim: int): (r: int)
    ensures 1 <= r <= Max(lim, 1)
  {
    var cap := Max(lim, 1);
    if af.blockSize <= 0 then cap
    else
      var whole := af.remaining / af.blockSize;
      var blocks := if af.remaining % af.blockSize != 0 then whole + 1 else whole;
      Min(Max(blocks, 1), cap)
  }

  /** Without a block size the limit decides alone. */
  lemma UsableUnsized(af: ActiveFile, lim: int)
    requires af.blockSize <= 0
    ensures UsableConns(af, lim) == Max(lim, 1)
  {
  }

  /** Below its cap the answer is the least number of full blocks that hold the remaining bytes. */
  lemma UsableIsCeiling(af: ActiveFile, lim: int)
    requires af.blockSize > 0
    ensures var r := UsableConns(af, lim);
            && (r < Max(lim, 1) ==> af.remaining <= r * af.blockSize)
            && (r > 1 ==> (r - 1) * af.blockSize < af.remaining)
  {
    var r, whole, part := UsableConns(af, lim), af.remaining / af.blockSize, af.remaining % af.blockSize;
    assert af.remaining == whole * af.blockSize + part;
    var blocks := if part != 0 then whole + 1 else whole;
    assert (blocks - 1) * af.blockSize == blocks * af.blockSize - af.blockSize;
    if r <= blocks { Scale(r - 1, blocks - 1, af.blockSize); }
    if blocks <= r { Scale(blocks, r, af.blockSize); }
  }

  lemma Scale(a: int, b: int, k: int)
    requires a <= b && 0 <= k
    ensures a * k <= b * k
  {
  }

  // ---------------------------------------------------------------- the greedy split

  function Sum(v: seq<int>): int { if v == [] then 0 else v[0] + Sum(v[1..]) }

  /** Each file takes what it can use, short of one connection for every newer file. */
  function Split(usable: seq<int>, left: int): seq<int> {
    if usable == [] then []
    else
      var c := Max(Min(usable[0], left - (|usable| - 1)), 1);
      [c] + Split(usable[1..], left - c)
  }

  predicate AllAtLeastOne(v: seq<int>) { forall i | 0 <= i < |v| :: 1 <= v[i] }

  lemma {:induction false} SumAtLeast(v: seq<int>)
    requires AllAtLeastOne(v)
    ensures |v| <= Sum(v)
  {
    if v != [] { SumAtLeast(v[1..]); }
  }

  /** Every share is usable, no file is left without, and nothing usable is left unassigned. */
  lemma {:induction false} SplitExact(usable: seq<int>, left: int)
    requires AllAtLeastOne(usable)
    ensures var s := Split(usable, left);
            && |s| == |usable| && (forall i | 0 <= i < |s| :: 1 <= s[i] <= usable[i])
            && Sum(s) == Max(|usable|, Min(left, Sum(usable)))
  {
    if usable != [] {
      var c := Max(Min(usable[0], left - (|usable| - 1)), 1);
      SplitExact(usable[1..], left - c);
      SumAtLeast(usable[1..]);
      assert Split(usable, left)[1..] == Split(usable[1..], left - c);
    }
  }

  /** A way to share the budget: one to usable each, at most the budget together. */
  predicate Feasible(v: seq<int>, usable: seq<int>, budget: int) {
    |v| == |usable| && (forall i | 0 <= i < |v| :: 1 <= v[i] <= usable[i]) && Sum(v) <= budget
  }

  /** Lexicographic order on share vectors, the oldest file first. */
  predicate LexGeq(a: seq<int>, b: seq<int>)
    requires |a| == |b|
  {
    a == [] || a[0] > b[0] || (a[0] == b[0] && LexGeq(a[1..], b[1..]))
  }

  /** With a connection for everyone the split is feasible and beats every other, oldest file first. */
  lemma {:induction false} SplitOptimal(usable: seq<int>, budget: int, v: seq<int>)
    requires AllAtLeastOne(usable) && |usable| <= budget && Feasible(v, usable, budget)
    ensures |Split(usable, budget)| == |usable| && LexGeq(Split(usable, budget), v)
  {
    SplitExact(usable, budget);
    if usable != [] {
      var s := Split(usable, budget);
      SumAtLeast(v[1..]);
      assert v[0] <= budget - (|usable| - 1);
      assert s[1..] == Split(usable[1..], budget - s[0]);
      if v[0] == s[0] { SplitOptimal(usable[1..], budget - s[0], v[1..]); }
    }
  }

  /** Where two ordered vectors first part, the larger one has more. */
  lemma {:induction false} LexFirst(a: seq<int>, b: seq<int>)
    requires |a| == |b| && LexGeq(a, b) && a != b
    ensures exists i | 0 <= i < |a| :: a[i] > b[i] && a[..i] == b[..i]
  {
    if a[0] > b[0] {
      assert a[..0] == b[..0];
    } else {
      assert a == [a[0]] + a[1..] && b == [b[0]] + b[1..];
      LexFirst(a[1..], b[1..]);
      var i :| 0 <= i < |a[1..]| && a[1..][i] > b[1..][i] && a[1..][..i] == b[1..][..i];
      assert a[..i + 1] == [a[0]] + a[1..][..i] && b[..i + 1] == [b[0]] + b[1..][..i];
      assert a[i + 1] > b[i + 1];
    }
  }

  lemma SplitFeasible(usable: seq<int>, budget: int)
    requires AllAtLeastOne(usable) && |usable| <= budget
    ensures Feasible(Split(usable, budget), usable, budget)
  {
  }

  lemma SplitStep(usable: seq<int>, i: nat, left: int, c: int, conns: seq<int>)
    requires i < |usable| && c == Max(Min(usable[i], left - (|usable| - i - 1)), 1)
    ensures conns + Split(usable[i..], left) == conns + [c] + Split(usable[i + 1..], left - c)
  {
    assert usable[i..][1..] == usable[i + 1..];
    assert Split(usable[i..], left) == [c] + Split(usable[i + 1..], left - c);
  }

  /** The loop that computes the split. */
  method SplitBudget(usable: seq<int>, budget: int) returns (conns: seq<int>)
    ensures conns == Split(usable, budget)
  {
    conns := [];
    var left := budget;
    var i := 0;
    while i < |usable|
      invariant 0 <= i <= |usable|
      invariant conns + Split(usable[i..], left) == Split(usable, budget)
    {
      var reserve := |usable| - i - 1;
      var c := Max(Min(usable[i], left - reserve), 1);
      SplitStep(usable, i, left, c, conns);
      conns := conns + [c];
      left := left - c;
      i := i + 1;
    }
  }

  // ---------------------------------------------------------------- sums over the active set

  ghost function SumOf(w: map<int, int>): int
    decreases |w|
  {
    if exists k :: k in w then
      var k :| k in w;
      w[k] + SumOf(w - {k})
    else 0
  }

  /** The sum does not depend on the order of the walk. */
  lemma {:induction false} SumPick(w: map<int, int>, k: int)
    requires k in w
    ensures SumOf(w) == w[k] + SumOf(w - {k})
    decreases |w|
  {
    var j :| j in w && SumOf(w) == w[j] + SumOf(w - {j});
    if j != k {
      SumPick(w - {j}, k);
      SumPick(w - {k}, j);
      assert w - {j} - {k} == w - {k} - {j};
    }
  }
}
