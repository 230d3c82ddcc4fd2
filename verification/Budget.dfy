/**
 The connection budget of pkg/sched: admission against the committed budget, oldest-first
 rebalancing of the live one, and the tuner that publishes both. Every section under the
 allocation lock is one step.
 */
module Budget {
  import opened Base
  import opened Shares

  type Active = map<int, ActiveFile>

  // ---------------------------------------------------------------- admission order

  /** Admission numbers are unique. */
  predicate Numbered(active: Active) {
    forall a, b | a in active && b in active && a != b :: active[a].order != active[b].order
  }

  /** The keys, each once, by admission number. */
  predicate InOrder(order: seq<int>, active: Active, keys: set<int>)
    requires keys <= active.Keys
    decreases |order|
  {
    if order == [] then keys == {}
    else
      && order[0] in keys
      && (forall k | k in keys :: active[order[0]].order <= active[k].order)
      && InOrder(order[1..], active, keys - {order[0]})
  }

  lemma {:induction false} OrderUnique(a: seq<int>, b: seq<int>, active: Active, keys: set<int>)
    requires Numbered(active) && keys <= active.Keys && InOrder(a, active, keys) && InOrder(b, active, keys)
    ensures a == b
    decreases |a|
  {
    if a != [] {
      assert a[0] in keys && b != [] && a[0] == b[0];
      OrderUnique(a[1..], b[1..], active, keys - {a[0]});
      assert a == [a[0]] + a[1..] && b == [b[0]] + b[1..];
    }
  }

  lemma {:induction false} OrderExists(active: Active, keys: set<int>)
    requires keys <= active.Keys
    ensures exists order :: InOrder(order, active, keys)
    decreases |keys|
  {
    if k :| k in keys {
      var first := OldestOf(active, keys, k);
      OrderExists(active, keys - {first});
      var rest :| InOrder(rest, active, keys - {first});
      assert ([first] + rest)[1..] == rest;
      assert InOrder([first] + rest, active, keys);
    } else {
      assert forall k :: k !in keys;
      assert keys == {};
      assert InOrder([], active, keys);
    }
  }

  lemma {:induction false} OldestOf(active: Active, keys: set<int>, k: int) returns (first: int)
    requires k in keys && keys <= active.Keys
    ensures first in keys && forall j | j in keys :: active[first].order <= active[j].order
    decreases |keys|
  {
    if j :| j in keys - {k} {
      var rest := OldestOf(active, keys - {k}, j);
      first := if active[k].order <= active[rest].order then k else rest;
      forall i | i in keys ensures active[first].order <= active[i].order {
        if i != k { assert i in keys - {k}; }
      }
    } else {
      first := k;
      forall i | i in keys ensures i == k { assert i !in keys - {k}; }
    }
  }

  ghost function AdmissionOrder(active: Active): (order: seq<int>)
    ensures InOrder(order, active, active.Keys)
  {
    OrderExists(active, active.Keys);
    var order :| InOrder(order, active, active.Keys);
    order
  }

  predicate Known(order: seq<int>, active: Active) { forall i | 0 <= i < |order| :: order[i] in active }

  lemma {:induction false} OrderLists(order: seq<int>, active: Active, keys: set<int>)
    requires keys <= active.Keys && InOrder(order, active, keys)
    ensures |order| == |keys| && (forall k :: k in keys <==> k in order) && Known(order, active)
    decreases |order|
  {
    if order != [] {
      OrderLists(order[1..], active, keys - {order[0]});
      assert order == [order[0]] + order[1..];
    }
  }

  // ---------------------------------------------------------------- rebalancing

  function Usables(active: Active, order: seq<int>, budget: int): (u: seq<int>)
    requires Known(order, active)
    ensures |u| == |order| && AllAtLeastOne(u)
    ensures forall i | 0 <= i < |u| :: u[i] == UsableConns(active[order[i]], budget)
  {
    seq(|order|, i requires 0 <= i < |order| => UsableConns(active[order[i]], budget))
  }

  function Assign(active: Active, order: seq<int>, conns: seq<int>): Active
    requires |order| == |conns| && AllAtLeastOne(conns) && Known(order, active)
    decreases |order|
  {
    if order == [] then active
    else Assign(active[order[0] := active[order[0]].(conns := conns[0])], order[1..], conns[1..])
  }

  ghost function Rebalanced(active: Active, budget: int): Active {
    var order := AdmissionOrder(active);
    OrderLists(order, active, active.Keys);
    SplitExact(Usables(active, order, budget), budget);
    Assign(active, order, Split(Usables(active, order, budget), budget))
  }

  function ConnsOf(active: Active): map<int, int> { map k | k in active :: active[k].conns }

  function UsableOf(active: Active, budget: int): map<int, int> {
    map k | k in active :: UsableConns(active[k], budget)
  }

  ghost function TotalConns(active: Active): int { SumOf(ConnsOf(active)) }

  /** Budget the active set cannot put to work. */
  ghost function Spare(active: Active, budget: int): int { budget - SumOf(UsableOf(active, budget)) }

  /** Along any listing of its keys a map's sum is the sequence's sum. */
  lemma {:induction false} SumAlong(w: map<int, int>, order: seq<int>, active: Active, v: seq<int>)
    requires w.Keys <= active.Keys && InOrder(order, active, w.Keys) && |v| == |order|
    requires forall i | 0 <= i < |v| :: order[i] in w && w[order[i]] == v[i]
    ensures SumOf(w) == Sum(v)
    decreases |order|
  {
    if order == [] {
      assert w.Keys == {};
      assert !(exists k :: k in w);
    } else {
      var k := order[0];
      SumPick(w, k);
      assert (w - {k}).Keys == w.Keys - {k};
      OrderLists(order[1..], active, w.Keys - {k});
      forall i | 0 <= i < |v[1..]| ensures order[1..][i] in w - {k} && (w - {k})[order[1..][i]] == v[1..][i] {
        assert order[1..][i] in order[1..];
      }
      SumAlong(w - {k}, order[1..], active, v[1..]);
    }
  }

  /** Everything but the connection count. */
  predicate SameFile(a: ActiveFile, b: ActiveFile) {
    a.order == b.order && a.blockSize == b.blockSize && a.remaining == b.remaining
  }

  predicate SameFiles(a: Active, b: Active) {
    a.Keys == b.Keys && forall k | k in a :: SameFile(a[k], b[k])
  }

  /** Assigning changes the listed files' connection counts and nothing else. */
  lemma {:induction false} AssignEffect(active: Active, order: seq<int>, conns: seq<int>, base: Active, keys: set<int>)
    requires |order| == |conns| && AllAtLeastOne(conns) && Known(order, active)
    requires keys <= base.Keys && InOrder(order, base, keys)
    ensures SameFiles(active, Assign(active, order, conns))
    ensures forall i | 0 <= i < |order| :: Assign(active, order, conns)[order[i]].conns == conns[i]
    ensures forall k | k in active && k !in keys :: Assign(active, order, conns)[k] == active[k]
    decreases |order|
  {
    if order != [] {
      var active1 := active[order[0] := active[order[0]].(conns := conns[0])];
      var a' := Assign(active1, order[1..], conns[1..]);
      AssignEffect(active1, order[1..], conns[1..], base, keys - {order[0]});
      var first := order[0];
      assert first in active1 && first !in keys - {first};
      assert a'[first] == active1[first];
      forall i | 0 <= i < |order| ensures order[i] in a' && a'[order[i]].conns == conns[i] {
        if i > 0 { assert order[1..][i - 1] == order[i] && conns[1..][i - 1] == conns[i]; }
      }
      forall k | k in active ensures SameFile(active[k], a'[k]) {
        assert SameFile(active1[k], a'[k]);
      }
    }
  }

  /**
   A rebalance keeps the files and gives each between one connection and what it can use; the
   total is exactly the budget or all that is usable, or one each when the budget is too small.
   */
  lemma RebalanceExact(active: Active, budget: int)
    ensures var a' := Rebalanced(active, budget);
            && SameFiles(active, a')
            && (forall k | k in a' :: 1 <= a'[k].conns <= UsableConns(active[k], budget))
            && TotalConns(a') == Max(|active|, Min(budget, SumOf(UsableOf(active, budget))))
  {
    var order := AdmissionOrder(active);
    OrderLists(order, active, active.Keys);
    var u := Usables(active, order, budget);
    SplitExact(u, budget);
    var conns := Split(u, budget);
    AssignEffect(active, order, conns, active, active.Keys);
    var a' := Rebalanced(active, budget);
    forall k | k in a' ensures 1 <= a'[k].conns <= UsableConns(active[k], budget) {
      assert k in order;
      var i :| 0 <= i < |order| && order[i] == k;
      assert a'[order[i]].conns == conns[i] && 1 <= conns[i] <= u[i];
    }
    assert ConnsOf(a').Keys == active.Keys && UsableOf(active, budget).Keys == active.Keys;
    SumAlong(ConnsOf(a'), order, active, conns);
    SumAlong(UsableOf(active, budget), order, active, u);
  }

  /** A listing by admission is sorted by it. */
  lemma {:induction false} OrderSorted(order: seq<int>, active: Active, keys: set<int>, i: nat, j: nat)
    requires keys <= active.Keys && InOrder(order, active, keys) && Known(order, active) && i <= j < |order|
    ensures active[order[i]].order <= active[order[j]].order
    decreases |order|
  {
    OrderLists(order, active, keys);
    if i > 0 {
      OrderSorted(order[1..], active, keys - {order[0]}, i - 1, j - 1);
    } else {
      var last := order[j];
      assert last in order;
    }
  }

  /** A way to hand out the budget: one to usable each, at most the budget together. */
  ghost predicate Handout(usable: map<int, int>, budget: int, shares: map<int, int>) {
    && shares.Keys == usable.Keys && SumOf(shares) <= budget
    && forall k | k in shares :: 1 <= shares[k] <= usable[k]
  }

  /** The file k has more than in the other handout, and every older file has the same. */
  predicate OldestAhead(active: Active, mine: Active, other: map<int, int>, k: int)
    requires mine.Keys == other.Keys == active.Keys
  {
    && k in active && mine[k].conns > other[k]
    && forall j | j in active && active[j].order < active[k].order :: mine[j].conns == other[j]
  }

  /**
   With a connection for everyone a rebalance beats every other handout: they agree, or the
   oldest file on which they part gets more from the rebalance.
   */
  lemma RebalanceOptimal(active: Active, budget: int, other: map<int, int>)
    requires |active| <= budget && Handout(UsableOf(active, budget), budget, other)
    ensures SameFiles(active, Rebalanced(active, budget))
    ensures ConnsOf(Rebalanced(active, budget)) == other
         || exists k :: OldestAhead(active, Rebalanced(active, budget), other, k)
  {
    var order := AdmissionOrder(active);
    OrderLists(order, active, active.Keys);
    var u := Usables(active, order, budget);
    SplitExact(u, budget);
    AssignEffect(active, order, Split(u, budget), active, active.Keys);
    SharesAlong(active, UsableOf(active, budget), budget, other, order, u);
    SplitOptimal(u, budget, Along(other, order));
    BestAlong(active, Rebalanced(active, budget), other, order, Split(u, budget));
  }

  /** The shares of the listed files, in that order. */
  function Along(shares: map<int, int>, order: seq<int>): (v: seq<int>)
    requires forall i | 0 <= i < |order| :: order[i] in shares
    ensures |v| == |order| && forall i | 0 <= i < |v| :: v[i] == shares[order[i]]
  {
    seq(|order|, i requires 0 <= i < |order| => shares[order[i]])
  }

  lemma SharesAlong(active: Active, usable: map<int, int>, budget: int, other: map<int, int>, order: seq<int>,
                    u: seq<int>)
    requires InOrder(order, active, active.Keys) && Known(order, active)
    requires Handout(usable, budget, other) && usable.Keys == active.Keys
    requires |u| == |order| && forall i | 0 <= i < |order| :: order[i] in usable && u[i] == usable[order[i]]
    ensures (forall i | 0 <= i < |order| :: order[i] in other) && Feasible(Along(other, order), u, budget)
  {
    assert forall i | 0 <= i < |order| :: order[i] in other;
    var v := Along(other, order);
    SumAlong(other, order, active, v);
    forall i | 0 <= i < |v| ensures 1 <= v[i] <= u[i] {
      var k := order[i];
      assert k in other && v[i] == other[k] && u[i] == usable[k];
    }
  }

  lemma BestAlong(active: Active, a': Active, other: map<int, int>, order: seq<int>, conns: seq<int>)
    requires InOrder(order, active, active.Keys) && Known(order, active) && a'.Keys == other.Keys == active.Keys
    requires |conns| == |order| && forall i | 0 <= i < |order| :: order[i] in a' && a'[order[i]].conns == conns[i]
    requires LexGeq(conns, Along(other, order))
    ensures ConnsOf(a') == other || exists k :: OldestAhead(active, a', other, k)
  {
    var v := Along(other, order);
    if conns == v {
      OrderLists(order, active, active.Keys);
      forall k | k in active ensures a'[k].conns == other[k] {
        assert k in order;
        var i :| 0 <= i < |order| && order[i] == k;
        assert conns[i] == v[i];
      }
    } else {
      LexFirst(conns, v);
      var i :| 0 <= i < |conns| && conns[i] > v[i] && conns[..i] == v[..i];
      forall j | 0 <= j < i ensures a'[order[j]].conns == other[order[j]] {
        assert conns[..i][j] == v[..i][j];
      }
      FirstParting(active, a', other, order, i);
    }
  }

  lemma FirstParting(active: Active, a': Active, other: map<int, int>, order: seq<int>, i: nat)
    requires InOrder(order, active, active.Keys) && Known(order, active)
    requires a'.Keys == other.Keys == active.Keys && i < |order| && a'[order[i]].conns > other[order[i]]
    requires forall j | 0 <= j < i :: a'[order[j]].conns == other[order[j]]
    ensures OldestAhead(active, a', other, order[i])
  {
    OrderLists(order, active, active.Keys);
    forall k | k in active && active[k].order < active[order[i]].order ensures a'[k].conns == other[k] {
      assert k in order;
      var j :| 0 <= j < |order| && order[j] == k;
      if i <= j { OrderSorted(order, active, active.Keys, i, j); }
    }
  }
}
