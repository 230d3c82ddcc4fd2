/**
 The allocator as a state machine and as an object. A step is one critical section of the
 allocation lock (admission, a tuner tick, the clamp of SetLimits) or one change of the active
 set outside it (a completed block, a finished file).
 */
module Alloc {
  import opened Base
  import opened Shares
  import opened Budget
  import Tune

  datatype State = State(
    active: Active, admitted: nat,
    budget: int, committed: int,    // what the tuner last published
    maxWorkers: int, tuner: Tune.State)

  /** Budget and committed budget start at one; the tuner climbs from there. */
  function Start(maxWorkers: int): State { State(map[], 0, 1, 1, maxWorkers, Tune.NEW) }

  function Ceiling(s: State): int { Max(s.maxWorkers, 1) }

  function ConnBudget(s: State): int { Min(Max(s.budget, 1), Ceiling(s)) }

  function CommittedBudget(s: State): int { Min(Max(s.committed, 1), Ceiling(s)) }

  // ---------------------------------------------------------------- steps

  datatype Step =
    | Admit(id: int, blockSize: int, remaining: nat)
    | BlockDone(id: int, n: nat)
    | Leave(id: int)
    | Tick(now: int, rate: real, utilization: real, kills: int)
    | StoreLimits(maxWorkers: int)
    | ClampLimits

  ghost function AdmitFile(s: State, id: int, blockSize: int, remaining: nat): State {
    if id in s.active || Spare(s.active, CommittedBudget(s)) < 1 then s
    else
      var active := s.active[id := ActiveFile(s.admitted + 1, blockSize, remaining, 0)];
      s.(active := Rebalanced(active, ConnBudget(s)), admitted := s.admitted + 1)
  }

  function NoteBlockDone(s: State, id: int, n: nat): State {
    if id in s.active then s.(active := s.active[id := s.active[id].(remaining := Max(s.active[id].remaining - n, 0))])
    else s
  }

  ghost function TuneTick(s: State, now: int, rate: real, utilization: real, kills: int): State {
    var t := Tune.Observe(Tune.DEFAULTS, s.tuner, now, Ceiling(s),
      Tune.Sample(rate, utilization, TotalConns(s.active), kills));
    s.(tuner := t, budget := t.budget, committed := Tune.Committed(t), active := Rebalanced(s.active, t.budget))
  }

  ghost function Clamped(s: State): State {
    var mw := Ceiling(s);
    if s.budget > mw || s.committed > mw then
      var s1 := s.(budget := Min(s.budget, mw), committed := Min(s.committed, mw));
      s1.(active := Rebalanced(s.active, ConnBudget(s1)))
    else s
  }

  ghost function Next(s: State, step: Step): State {
    match step
    case Admit(id, blockSize, remaining) => AdmitFile(s, id, blockSize, remaining)
    case BlockDone(id, n) => NoteBlockDone(s, id, n)
    case Leave(id) => s.(active := s.active - {id})
    case Tick(now, rate, utilization, kills) => TuneTick(s, now, rate, utilization, kills)
    case StoreLimits(maxWorkers) => s.(maxWorkers := maxWorkers)
    case ClampLimits => Clamped(s)
  }

  ghost function Steps(s: State, steps: seq<Step>): State
    decreases |steps|
  {
    if steps == [] then s else Steps(Next(s, steps[0]), steps[1..])
  }

  // ---------------------------------------------------------------- counting

  lemma {:induction false} SumAtLeastSize(w: map<int, int>)
    requires forall k | k in w :: 1 <= w[k]
    ensures |w| <= SumOf(w)
    decreases |w|
  {
    if k :| k in w {
      SumPick(w, k);
      SumAtLeastSize(w - {k});
      assert |w| == |w - {k}| + 1;
    } else {
      assert forall k :: k !in w.Keys;
      assert w.Keys == {};
    }
  }

  /** A file is admitted only where every active file already has a committed connection to spare. */
  lemma SpareBoundsFiles(active: Active, budget: int)
    ensures |active| <= budget - Spare(active, budget)
  {
    var w := UsableOf(active, budget);
    assert w.Keys == active.Keys;
    SumAtLeastSize(w);
  }

  lemma TotalWithout(active: Active, id: int)
    ensures TotalConns(active - {id}) <= TotalConns(active) && |active - {id}| <= |active|
  {
    if id in active {
      SumPick(ConnsOf(active), id);
      assert ConnsOf(active) - {id} == ConnsOf(active - {id});
      assert (active - {id}).Keys == active.Keys - {id};
    } else {
      assert active - {id} == active;
    }
  }

  // ---------------------------------------------------------------- the invariant

  /** Admission numbers are unique and below the counter. */
  predicate Counted(s: State) {
    Numbered(s.active) && forall k | k in s.active :: s.active[k].order <= s.admitted
  }

  ghost predicate Within(s: State) {
    && Counted(s) && Tune.Sane(Tune.DEFAULTS, s.tuner)
    && s.budget == s.tuner.budget && s.committed == Tune.Committed(s.tuner)
    && |s.active| <= s.committed <= s.budget <= Ceiling(s)
    && TotalConns(s.active) <= s.budget
  }

  lemma CountedRebalance(s: State, active: Active, budget: int)
    requires Counted(s.(active := active))
    ensures Counted(s.(active := Rebalanced(active, budget)))
  {
    RebalanceExact(active, budget);
    var a' := Rebalanced(active, budget);
    forall a, b | a in a' && b in a' && a != b ensures a'[a].order != a'[b].order {
      assert SameFile(active[a], a'[a]) && SameFile(active[b], a'[b]);
    }
    forall k | k in a' ensures a'[k].order <= s.admitted { assert SameFile(active[k], a'[k]); }
  }

  /** After any rebalance the total is at most the budget, or one connection for each file. */
  lemma RebalanceBound(active: Active, budget: int)
    ensures TotalConns(Rebalanced(active, budget)) <= Max(|active|, budget) && |Rebalanced(active, budget)| == |active|
  {
    RebalanceExact(active, budget);
    assert Rebalanced(active, budget).Keys == active.Keys;
    assert |Rebalanced(active, budget).Keys| == |active.Keys|;
  }

  lemma AdmitKeeps(s: State, id: int, blockSize: int, remaining: nat)
    requires Within(s)
    ensures Within(AdmitFile(s, id, blockSize, remaining))
  {
    if id !in s.active && Spare(s.active, CommittedBudget(s)) >= 1 {
      var active := s.active[id := ActiveFile(s.admitted + 1, blockSize, remaining, 0)];
      SpareBoundsFiles(s.active, CommittedBudget(s));
      OneMore(s, id, blockSize, remaining);
      CountedRebalance(s.(admitted := s.admitted + 1), active, ConnBudget(s));
      RebalanceBound(active, ConnBudget(s));
    }
  }

  lemma OneMore(s: State, id: int, blockSize: int, remaining: nat)
    requires Counted(s) && id !in s.active
    ensures var active := s.active[id := ActiveFile(s.admitted + 1, blockSize, remaining, 0)];
            Counted(s.(admitted := s.admitted + 1, active := active)) && |active| == |s.active| + 1
  {
  }

  lemma AdmitCounted(s: State, id: int, blockSize: int, remaining: nat)
    requires Counted(s) && id !in s.active && Spare(s.active, CommittedBudget(s)) >= 1
    ensures var grown := s.active[id := ActiveFile(s.admitted + 1, blockSize, remaining, 0)];
            var s' := AdmitFile(s, id, blockSize, remaining);
            && Numbered(grown) && s' == s.(active := Rebalanced(grown, ConnBudget(s)), admitted := s.admitted + 1)
            && Counted(s') && id in s'.active && s'.active[id].conns >= 1
  {
    var grown := s.active[id := ActiveFile(s.admitted + 1, blockSize, remaining, 0)];
    OneMore(s, id, blockSize, remaining);
    CountedRebalance(s.(admitted := s.admitted + 1), grown, ConnBudget(s));
    RebalanceExact(grown, ConnBudget(s));
  }

  lemma DoneKeeps(s: State, id: int, n: nat)
    requires Within(s)
    ensures Within(NoteBlockDone(s, id, n))
  {
    if id in s.active {
      var s' := NoteBlockDone(s, id, n);
      assert ConnsOf(s'.active) == ConnsOf(s.active);
      assert s'.active.Keys == s.active.Keys;
      assert |s'.active| == |s'.active.Keys|;
    }
  }

  lemma LeaveKeeps(s: State, id: int)
    requires Within(s)
    ensures Within(s.(active := s.active - {id}))
  {
    TotalWithout(s.active, id);
  }

  lemma TickKeeps(s: State, now: int, rate: real, utilization: real, kills: int)
    requires Within(s)
    ensures Within(TuneTick(s, now, rate, utilization, kills))
  {
    var sample := Tune.Sample(rate, utilization, TotalConns(s.active), kills);
    var t := Tune.Observe(Tune.DEFAULTS, s.tuner, now, Ceiling(s), sample);
    Tune.ObserveSane(Tune.DEFAULTS, s.tuner, now, Ceiling(s), sample);
    if s.tuner.seeded { Tune.CommittedMoves(Tune.DEFAULTS, s.tuner, now, Ceiling(s), sample); }
    assert s.committed <= Tune.Committed(t);
    CountedRebalance(s, s.active, t.budget);
    RebalanceBound(s.active, t.budget);
  }

  /** A run in which no stored limit is below the one before it. */
  predicate NeverLowered(limit: int, steps: seq<Step>)
    decreases |steps|
  {
    steps != [] ==>
      if steps[0].StoreLimits? then limit <= steps[0].maxWorkers && NeverLowered(steps[0].maxWorkers, steps[1..])
      else NeverLowered(limit, steps[1..])
  }

  lemma NextKeeps(s: State, step: Step)
    requires Within(s) && (step.StoreLimits? ==> s.maxWorkers <= step.maxWorkers)
    ensures Within(Next(s, step))
    ensures Next(s, step).maxWorkers == if step.StoreLimits? then step.maxWorkers else s.maxWorkers
  {
    match step
    case Admit(id, blockSize, remaining) => AdmitKeeps(s, id, blockSize, remaining);
    case BlockDone(id, n) => DoneKeeps(s, id, n);
    case Leave(id) => LeaveKeeps(s, id);
    case Tick(now, rate, utilization, kills) => TickKeeps(s, now, rate, utilization, kills);
    case StoreLimits(_) =>
    case ClampLimits =>
  }

  lemma {:induction false} StepsKeep(s: State, steps: seq<Step>)
    requires Within(s) && NeverLowered(s.maxWorkers, steps)
    ensures Within(Steps(s, steps))
    decreases |steps|
  {
    if steps != [] {
      NextKeeps(s, steps[0]);
      StepsKeep(Next(s, steps[0]), steps[1..]);
    }
  }

  /**
   While MaxWorkers is never lowered, in every state any run reaches, a just reverted probe
   included: no more files than the committed budget, no more connections than the live one.
   */
  lemma BudgetRespected(maxWorkers: int, steps: seq<Step>)
    requires NeverLowered(maxWorkers, steps)
    ensures var s := Steps(Start(maxWorkers), steps);
            && |s.active| <= s.committed <= s.budget <= Max(s.maxWorkers, 1)
            && TotalConns(s.active) <= s.budget
  {
    assert ConnsOf(map[]) == map[];
    StepsKeep(Start(maxWorkers), steps);
  }

  // ---------------------------------------------------------------- what a step comes to

  /** The most a budget can hand out: all that is usable, but at least one connection each. */
  ghost function Handed(active: Active, budget: int): int {
    Max(|active|, Min(budget, SumOf(UsableOf(active, budget))))
  }

  /**
   A tick starts a probe exactly when the controller may, the link has room, bytes flow and the
   connections assigned to files come to three quarters of its budget.
   */
  lemma TickStartsIff(s: State, now: int, rate: real, utilization: real, kills: int)
    requires Tune.Sane(Tune.DEFAULTS, s.tuner) && !s.tuner.probing
    ensures var t := Tune.Tick(now, Max(s.maxWorkers, 1), Tune.Sample(rate, utilization, 0, kills));
            TuneTick(s, now, rate, utilization, kills).tuner.probing <==>
              && Tune.MayProbe(s.tuner, t) && utilization < 0.9 && 0.0 < rate
              && 3 * Tune.Standing(s.tuner, s.maxWorkers) <= 4 * TotalConns(s.active)
  {
    var t := Tune.Tick(now, Ceiling(s), Tune.Sample(rate, utilization, TotalConns(s.active), kills));
    Tune.StartsIff(Tune.DEFAULTS, s.tuner, t);
  }

  /** What a tick publishes is handed out in full. */
  lemma TickHandsOut(s: State, now: int, rate: real, utilization: real, kills: int)
    ensures var s' := TuneTick(s, now, rate, utilization, kills);
            && s'.budget == s'.tuner.budget && s'.committed == Tune.Committed(s'.tuner)
            && SameFiles(s.active, s'.active) && TotalConns(s'.active) == Handed(s.active, s'.budget)
  {
    RebalanceExact(s.active, TuneTick(s, now, rate, utilization, kills).budget);
  }

  lemma SameHanded(a: Active, b: Active, budget: int)
    requires SameFiles(a, b)
    ensures Handed(a, budget) == Handed(b, budget)
  {
    forall k | k in a ensures UsableConns(a[k], budget) == UsableConns(b[k], budget) {
      assert SameFile(a[k], b[k]);
    }
    assert UsableOf(a, budget) == UsableOf(b, budget);
    assert |a.Keys| == |b.Keys|;
  }

  /** So is the live budget when a file is admitted, and when a lowered limit cuts it. */
  lemma AdmissionHandsOut(s: State, id: int, blockSize: int, remaining: nat)
    requires Counted(s) && id !in s.active && Spare(s.active, CommittedBudget(s)) >= 1
    ensures var s' := AdmitFile(s, id, blockSize, remaining);
            s'.budget == s.budget && TotalConns(s'.active) == Handed(s'.active, ConnBudget(s))
  {
    var grown := s.active[id := ActiveFile(s.admitted + 1, blockSize, remaining, 0)];
    AdmitCounted(s, id, blockSize, remaining);
    RebalanceExact(grown, ConnBudget(s));
    SameHanded(grown, Rebalanced(grown, ConnBudget(s)), ConnBudget(s));
  }

  /** The new file is the youngest, and the others stay. */
  lemma AdmissionAddsYoungest(s: State, id: int, blockSize: int, remaining: nat)
    requires Counted(s) && id !in s.active && Spare(s.active, CommittedBudget(s)) >= 1
    ensures var a' := AdmitFile(s, id, blockSize, remaining).active;
            && a'.Keys == s.active.Keys + {id} && a'[id].blockSize == blockSize && a'[id].remaining == remaining
            && forall k | k in s.active :: SameFile(s.active[k], a'[k]) && s.active[k].order < a'[id].order
  {
    var grown := s.active[id := ActiveFile(s.admitted + 1, blockSize, remaining, 0)];
    AdmitCounted(s, id, blockSize, remaining);
    RebalanceExact(grown, ConnBudget(s));
    Youngest(s, id, grown, Rebalanced(grown, ConnBudget(s)));
  }

  lemma Youngest(s: State, id: int, grown: Active, a': Active)
    requires Counted(s) && id in grown && grown[id].order == s.admitted + 1 && grown.Keys == s.active.Keys + {id}
    requires id !in s.active && (forall k | k in s.active :: grown[k] == s.active[k]) && SameFiles(grown, a')
    ensures SameFile(grown[id], a'[id])
    ensures forall k | k in s.active :: SameFile(s.active[k], a'[k]) && s.active[k].order < a'[id].order
  {
    forall k | k in grown ensures SameFile(grown[k], a'[k]) {}
  }

  /** The clamp brings both budgets under the limit; if neither was above it, nothing moves. */
  lemma ClampHandsOut(s: State)
    ensures var s' := Clamped(s);
            && s'.budget == Min(s.budget, Max(s.maxWorkers, 1))
            && s'.committed == Min(s.committed, Max(s.maxWorkers, 1))
            && SameFiles(s.active, s'.active) && s'.maxWorkers == s.maxWorkers && s'.tuner == s.tuner
            && (if s'.budget == s.budget && s'.committed == s.committed then s' == s
                else TotalConns(s'.active) == Handed(s.active, ConnBudget(s')))
  {
    RebalanceExact(s.active, ConnBudget(Clamped(s)));
  }

  /** A completed block comes off its file's counter and moves no connection. */
  lemma DoneCountsDown(s: State, id: int, n: nat)
    requires id in s.active
    ensures var s' := NoteBlockDone(s, id, n);
            && s'.active.Keys == s.active.Keys && ConnsOf(s'.active) == ConnsOf(s.active)
            && s'.active[id].remaining == Max(s.active[id].remaining - n, 0)
            && (forall k | k in s.active && k != id :: s'.active[k] == s.active[k])
            && s' == s.(active := s'.active)
  {
  }

  // ---------------------------------------------------------------- when limits are lowered

  lemma AnyStepSane(s: State, step: Step)
    requires Tune.Sane(Tune.DEFAULTS, s.tuner)
    ensures Tune.Sane(Tune.DEFAULTS, Next(s, step).tuner)
  {
    if step.Tick? {
      Tune.ObserveSane(Tune.DEFAULTS, s.tuner, step.now, Ceiling(s),
                       Tune.Sample(step.rate, step.utilization, TotalConns(s.active), step.kills));
    }
  }

  lemma {:induction false} AnyRunSane(s: State, steps: seq<Step>)
    requires Tune.Sane(Tune.DEFAULTS, s.tuner)
    ensures Tune.Sane(Tune.DEFAULTS, Steps(s, steps).tuner)
    decreases |steps|
  {
    if steps != [] {
      AnyStepSane(s, steps[0]);
      AnyRunSane(Next(s, steps[0]), steps[1..]);
    }
  }

  /** A step that rebalances: an admission, a tick, or a clamp that had something to lower. */
  ghost predicate Rebalances(s: State, step: Step) {
    || (step.Admit? && Next(s, step) != s)
    || step.Tick?
    || (step.ClampLimits? && (s.budget > Ceiling(s) || s.committed > Ceiling(s)))
  }

  /** However the limits move, after a rebalance the total is at most the larger of budget and file count. */
  lemma LoweredTotal(maxWorkers: int, steps: seq<Step>, step: Step)
    requires Rebalances(Steps(Start(maxWorkers), steps), step)
    ensures var s' := Next(Steps(Start(maxWorkers), steps), step);
            TotalConns(s'.active) <= Max(|s'.active|, ConnBudget(s'))
  {
    var s := Steps(Start(maxWorkers), steps);
    AnyRunSane(Start(maxWorkers), steps);
    match step
    case Admit(id, blockSize, remaining) => AdmitTotal(s, id, blockSize, remaining);
    case Tick(now, rate, utilization, kills) => TickTotal(s, now, rate, utilization, kills);
    case ClampLimits => ClampTotal(s);
  }

  lemma AdmitTotal(s: State, id: int, blockSize: int, remaining: nat)
    ensures var s' := AdmitFile(s, id, blockSize, remaining);
            s' == s || TotalConns(s'.active) <= Max(|s'.active|, ConnBudget(s'))
  {
    RebalanceBound(s.active[id := ActiveFile(s.admitted + 1, blockSize, remaining, 0)], ConnBudget(s));
  }

  lemma ClampTotal(s: State)
    ensures var s' := Clamped(s);
            s.budget > Ceiling(s) || s.committed > Ceiling(s) ==>
              TotalConns(s'.active) <= Max(|s'.active|, ConnBudget(s'))
  {
    RebalanceBound(s.active, ConnBudget(Clamped(s)));
  }

  lemma TickTotal(s: State, now: int, rate: real, utilization: real, kills: int)
    requires Tune.Sane(Tune.DEFAULTS, s.tuner)
    ensures var s' := TuneTick(s, now, rate, utilization, kills);
            TotalConns(s'.active) <= Max(|s'.active|, ConnBudget(s'))
  {
    var s' := TuneTick(s, now, rate, utilization, kills);
    Tune.ObserveSane(Tune.DEFAULTS, s.tuner, now, Ceiling(s),
      Tune.Sample(rate, utilization, TotalConns(s.active), kills));
    RebalanceBound(s.active, s'.budget);
  }

  // ---------------------------------------------------------------- the manager in place

  class Manager {
    var active: Active
    var admitted: nat
    var budget: int
    var committed: int
    var maxWorkers: int
    const tuner: Tune.Controller

    ghost function Now(): State
      reads this, tuner
    {
      State(active, admitted, budget, committed, maxWorkers, tuner.Now())
    }

    ghost predicate Valid()
      reads this, tuner
    {
      tuner.cfg == Tune.DEFAULTS && tuner.Valid() && Counted(Now())
    }

    constructor (maxWorkers: int)
      ensures Valid() && Now() == Start(maxWorkers) && fresh(tuner)
    {
      this.maxWorkers := maxWorkers;
      active, admitted, budget, committed := map[], 0, 1, 1;
      tuner := new Tune.Controller(Tune.Config(0, 0, 0, 0, 0, 0.0, 0.0));
    }

    method ConnLimit() returns (r: int)
      ensures r == ConnBudget(Now())
    {
      r := Min(Max(budget, 1), Max(maxWorkers, 1));
    }

    method CommittedLimit() returns (r: int)
      ensures r == CommittedBudget(Now())
    {
      r := Min(Max(committed, 1), Max(maxWorkers, 1));
    }

    /** Walk the active set in any order and add up what each file can use. */
    method SpareConns(limit: int) returns (r: int)
      ensures r == Spare(active, limit)
    {
      var used := AddUp(UsableOf(active, limit));
      r := limit - used;
    }

    /** The connections currently assigned. */
    method AssignedConns() returns (total: int)
      ensures total == TotalConns(active)
    {
      total := AddUp(ConnsOf(active));
    }

    static method AddUp(w: map<int, int>) returns (sum: int)
      ensures sum == SumOf(w)
    {
      sum := 0;
      var rest := w;
      while |rest| > 0
        invariant sum + SumOf(rest) == SumOf(w)
        decreases |rest|
      {
        Inhabited(rest.Keys);
        assert |rest| == |rest.Keys|;
        var k :| k in rest.Keys;
        SumPick(rest, k);
        sum := sum + rest[k];
        rest := rest - {k};
      }
      NothingToSum(rest);
    }

    /** The active files sorted by admission number. */
    method SortByAdmission(keys: set<int>) returns (order: seq<int>)
      requires keys <= active.Keys
      ensures InOrder(order, active, keys)
      decreases |keys|
    {
      if |keys| == 0 {
        return [];
      }
      Inhabited(keys);
      var first :| first in keys;
      var rest := keys - {first};
      while |rest| > 0
        invariant rest <= keys && first in keys
        invariant forall k | k in keys - rest :: active[first].order <= active[k].order
        decreases |rest|
      {
        Inhabited(rest);
        var k :| k in rest;
        if active[k].order < active[first].order { first := k; }
        rest := rest - {k};
      }
      assert keys - rest == keys;
      var tail := SortByAdmission(keys - {first});
      order := [first] + tail;
      assert order[1..] == tail;
    }

    /** Split the budget oldest first and apply the shares one file at a time. */
    method RebalanceLocked(limit: int)
      requires Numbered(active)
      modifies this`active
      ensures active == Rebalanced(old(active), limit)
    {
      var order := SortByAdmission(active.Keys);
      OrderUnique(order, AdmissionOrder(active), active, active.Keys);
      OrderLists(order, active, active.Keys);
      var usable := Usables(active, order, limit);
      var conns := SplitBudget(usable, limit);
      SplitExact(usable, limit);
      ghost var want := Assign(active, order, conns);
      var i := 0;
      while i < |order|
        invariant 0 <= i <= |order| && Known(order, active)
        invariant Assign(active, order[i..], conns[i..]) == want
      {
        assert order[i..][1..] == order[i + 1..] && conns[i..][1..] == conns[i + 1..];
        active := active[order[i] := active[order[i]].(conns := conns[i])];
        i := i + 1;
      }
    }

    /** Admit a file if the committed budget has a connection to spare; the answer is its share. */
    method Admission(id: int, blockSize: int, remaining: nat) returns (conns: int, ok: bool)
      requires Valid()
      modifies this
      ensures Now() == AdmitFile(old(Now()), id, blockSize, remaining)
      ensures Valid() && ok == (id !in old(active) && Spare(old(active), CommittedBudget(old(Now()))) >= 1)
      ensures ok ==> id in active && conns == active[id].conns >= 1
    {
      var limit := CommittedLimit();
      var spare := SpareConns(limit);
      if id in active || spare < 1 {
        return 0, false;
      }
      conns := Insert(id, blockSize, remaining);
      ok := true;
    }

    /** Grow the active set by one file and split the live budget over it. */
    method Insert(id: int, blockSize: int, remaining: nat) returns (conns: int)
      requires Valid() && id !in active && Spare(active, CommittedBudget(Now())) >= 1
      modifies this
      ensures Valid() && Now() == AdmitFile(old(Now()), id, blockSize, remaining)
      ensures id in active && conns == active[id].conns >= 1
    {
      AdmitCounted(Now(), id, blockSize, remaining);
      admitted := admitted + 1;
      active := active[id := ActiveFile(admitted, blockSize, remaining, 0)];
      var target := ConnLimit();
      RebalanceLocked(target);
      return active[id].conns;
    }

    method BlockDone(id: int, n: nat)
      modifies this`active
      ensures Now() == NoteBlockDone(old(Now()), id, n)
    {
      if id in active {
        active := active[id := active[id].(remaining := Max(active[id].remaining - n, 0))];
      }
    }

    /** One tuner tick: observe, publish, rebalance. */
    method PublishTick(now: int, rate: real, utilization: real, kills: int)
      requires Valid()
      modifies this, tuner
      ensures Now() == TuneTick(old(Now()), now, rate, utilization, kills)
      ensures Valid()
    {
      var conns := AssignedConns();
      var b := tuner.Feed(now, Max(maxWorkers, 1), Tune.Sample(rate, utilization, conns, kills));
      var c := tuner.LastCommitted();
      budget, committed := b, c;
      CountedRebalance(Now(), active, b);
      RebalanceLocked(b);
    }

    /** The clamp of SetLimits. */
    method ClampToLimits()
      requires Valid()
      modifies this
      ensures Now() == Clamped(old(Now())) && Valid()
    {
      var mw := Max(maxWorkers, 1);
      if budget > mw || committed > mw {
        if budget > mw { budget := mw; }
        if committed > mw { committed := mw; }
        var target := ConnLimit();
        CountedRebalance(Now(), active, target);
        RebalanceLocked(target);
      }
    }
  }

  lemma NothingToSum(w: map<int, int>)
    requires w.Keys == {}
    ensures SumOf(w) == 0
  {
  }
}
