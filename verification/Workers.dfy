/**
 The worker set of one download (pkg/transfer/downloader.go setParallelism, removeWorker).
 Shrinking only marks workers; a marked worker finishes its block and leaves later, and until
 then it counts towards every later reduction.
 */
module Workers {
  import opened Base

  /** Total and unmarked workers. */
  datatype Count = Count(total: nat, live: nat)

  predicate Counts(c: Count) { c.live <= c.total }

  /** What one call makes of the counts. */
  function Reconciled(c: Count, n: nat): Count
    requires Counts(c)
  {
    if c.total < n then Count(n, c.live + (n - c.total)) else Count(c.total, Min(c.live, n))
  }

  datatype Event = Set(n: nat) | Exit // a marked worker leaves

  predicate Possible(c: Count, e: Event) { e.Exit? ==> c.live < c.total }

  function After(c: Count, e: Event): Count
    requires Counts(c) && Possible(c, e)
  {
    match e
    case Set(n) => Reconciled(c, n)
    case Exit => Count(c.total - 1, c.live)
  }

  predicate PossibleRun(c: Count, es: seq<Event>)
    requires Counts(c)
    decreases |es|
  {
    es != [] ==>
      Possible(c, es[0]) && (es[0].Set? ==> es[0].n >= 1) && PossibleRun(After(c, es[0]), es[1..])
  }

  function AfterAll(c: Count, es: seq<Event>): (r: Count)
    requires Counts(c) && PossibleRun(c, es)
    ensures Counts(r)
    decreases |es|
  {
    if es == [] then c else AfterAll(After(c, es[0]), es[1..])
  }

  /**
   Over any mix of calls and exits: a worker stays live, each call leaves at most n live and a
   total that is the larger of n and what it was, and churn never adds up beyond the largest n.
   */
  lemma {:induction false} NeverEmptied(c: Count, es: seq<Event>, peak: nat)
    requires Counts(c) && PossibleRun(c, es) && c.live >= 1 && c.total <= peak
    requires forall i | 0 <= i < |es| :: es[i].Set? ==> es[i].n <= peak
    ensures 1 <= AfterAll(c, es).live && AfterAll(c, es).total <= peak
    ensures es != [] && es[|es| - 1].Set? ==> AfterAll(c, es).live <= es[|es| - 1].n
    ensures es != [] && es[|es| - 1].Set? ==>
              && PossibleRun(c, es[..|es| - 1])
              && AfterAll(c, es).total == Max(AfterAll(c, es[..|es| - 1]).total, es[|es| - 1].n)
    decreases |es|
  {
    if es != [] {
      var c' := After(c, es[0]);
      NeverEmptied(c', es[1..], peak);
      if |es| == 1 {
        assert es[..0] == [];
      } else {
        assert es[..|es| - 1][1..] == es[1..][..|es| - 2];
      }
    }
  }

  /** Once the marked workers have left, one more call makes the live count exactly n. */
  lemma ExactOnceDrained(c: Count, n: nat)
    requires Counts(c) && n >= 1
    ensures c.live == c.total ==> Reconciled(c, n).live == n
    ensures Reconciled(c, n).live == n <==> (c.live == c.total || n <= c.live)
    ensures c.live <= n ==> Reconciled(c, n).live == c.live + Max(n - c.total, 0)
  {
  }

  // ---------------------------------------------------------------- the set in place

  /** Worker ids and their drain marks. */
  function Unmarked(workers: map<int, bool>): set<int> { set w | w in workers && !workers[w] }

  function CountOf(workers: map<int, bool>): Count { Count(|workers|, |Unmarked(workers)|) }

  lemma UnmarkedWithin(workers: map<int, bool>)
    ensures Counts(CountOf(workers))
  {
    SubsetSize(Unmarked(workers), workers.Keys);
  }

  function MarkedIn(workers: map<int, bool>, among: set<int>): set<int> {
    set w | w in workers && w in among && workers[w]
  }

  lemma MarkedStep(workers: map<int, bool>, among: set<int>, w: int)
    requires w in workers && w in among
    ensures |MarkedIn(workers, among)| == |MarkedIn(workers, among - {w})| + (if workers[w] then 1 else 0)
  {
    if workers[w] {
      assert MarkedIn(workers, among) == MarkedIn(workers, among - {w}) + {w};
    } else {
      assert MarkedIn(workers, among) == MarkedIn(workers, among - {w});
    }
  }

  lemma MarkedSize(workers: map<int, bool>)
    ensures |MarkedIn(workers, workers.Keys)| == |workers| - |Unmarked(workers)| && |MarkedIn(workers, {})| == 0
  {
    assert MarkedIn(workers, workers.Keys) + Unmarked(workers) == workers.Keys;
    assert |MarkedIn(workers, workers.Keys) + Unmarked(workers)|
        == |MarkedIn(workers, workers.Keys)| + |Unmarked(workers)|;
    assert MarkedIn(workers, {}) == {};
  }

  class WorkerSet {
    var workers: map<int, bool>
    var spawned: int // every id is below this
    var draining: bool

    ghost predicate Valid()
      reads this
    {
      forall w | w in workers :: w < spawned
    }

    constructor ()
      ensures Valid() && workers == map[] && !draining
    {
      workers, spawned, draining := map[], 0, false;
    }

    /** Start or mark workers to reach n; nothing happens once the set has emptied. */
    method SetParallelism(n: nat)
      requires Valid()
      modifies this`workers, this`spawned
      ensures Valid() && Counts(CountOf(old(workers)))
      ensures draining ==> workers == old(workers)
      ensures !draining ==> CountOf(workers) == Reconciled(CountOf(old(workers)), n)
      ensures forall w | w in old(workers) :: w in workers && (old(workers)[w] ==> workers[w])
    {
      UnmarkedWithin(workers);
      if draining {
        return;
      }
      var cur := |workers|;
      if cur < n {
        Spawn(n - cur);
      } else if n < cur {
        var drainers := Drainers();
        Mark(cur - n - drainers);
      } else {
        SubsetSize(Unmarked(workers), workers.Keys);
      }
    }

    method Spawn(k: nat)
      requires Valid()
      modifies this`workers, this`spawned
      ensures Valid() && |workers| == |old(workers)| + k && |Unmarked(workers)| == |Unmarked(old(workers))| + k
      ensures forall w | w in old(workers) :: w in workers && workers[w] == old(workers)[w]
    {
      var i := 0;
      while i < k
        invariant 0 <= i <= k && Valid()
        invariant |workers| == |old(workers)| + i && |Unmarked(workers)| == |Unmarked(old(workers))| + i
        invariant forall w | w in old(workers) :: w in workers && workers[w] == old(workers)[w]
      {
        ghost var before := workers;
        workers := workers[spawned := false];
        assert Unmarked(workers) == Unmarked(before) + {spawned};
        assert workers.Keys == before.Keys + {spawned};
        spawned := spawned + 1;
        i := i + 1;
      }
    }

    /** How many workers are on their way out already. */
    method Drainers() returns (d: nat)
      ensures d == |workers| - |Unmarked(workers)|
    {
      d := 0;
      var rest := workers.Keys;
      while |rest| > 0
        invariant rest <= workers.Keys && d + |MarkedIn(workers, rest)| == |MarkedIn(workers, workers.Keys)|
        decreases |rest|
      {
        Inhabited(rest);
        var w :| w in rest;
        MarkedStep(workers, rest, w);
        if workers[w] { d := d + 1; }
        rest := rest - {w};
      }
      assert rest == {};
      MarkedSize(workers);
    }

    /** Mark k more workers, or all of them if there are fewer. */
    method Mark(k: int)
      requires Valid()
      modifies this`workers
      ensures Valid() && workers.Keys == old(workers).Keys
      ensures |Unmarked(workers)| == |Unmarked(old(workers))| - Min(Max(k, 0), |Unmarked(old(workers))|)
      ensures forall w | w in old(workers) :: old(workers)[w] ==> workers[w]
    {
      var left := k;
      var rest := workers.Keys;
      while |rest| > 0 && left > 0
        invariant Valid() && workers.Keys == old(workers).Keys && rest <= workers.Keys
        invariant |Unmarked(workers)| == |Unmarked(old(workers))| - (k - left)
               && (if k < 0 then left == k else 0 <= left <= k)
        invariant forall w | w in old(workers) :: old(workers)[w] ==> workers[w]
        invariant forall w | w in workers && w !in rest :: workers[w]
        decreases |rest|
      {
        Inhabited(rest);
        var w :| w in rest;
        if !workers[w] {
          ghost var before := workers;
          workers := workers[w := true];
          assert Unmarked(workers) == Unmarked(before) - {w};
          left := left - 1;
        }
        rest := rest - {w};
      }
      if left > 0 {
        assert rest == {};
        assert forall w :: w !in Unmarked(workers);
        assert Unmarked(workers) == {};
      }
    }

    /** An exited worker leaves the set; the last one closes it for good. */
    method RemoveWorker(w: int)
      requires Valid() && w in workers
      modifies this`workers, this`draining
      ensures Valid() && workers == old(workers) - {w} && draining == (old(draining) || |workers| == 0)
      ensures old(workers)[w] ==> CountOf(workers) == Count(|old(workers)| - 1, |Unmarked(old(workers))|)
    {
      workers := workers - {w};
      assert workers.Keys == old(workers).Keys - {w};
      assert old(workers)[w] ==> Unmarked(workers) == Unmarked(old(workers));
      if |workers| == 0 { draining := true; }
    }
  }
}
