/**
 The process-wide gate on throughput kills (pkg/transfer/killgate.go). Each call reads the
 clock, the bandwidth utilization and, up to twice, the global rate; all of them are inputs.
 Times are milliseconds.
 */
module KillGate {
  import opened Base

  const VERIFY_WINDOW: int := 30_000
  const SUPPRESS_MIN: int := 30_000
  const SUPPRESS_MAX: int := 300_000

  /** None is the zero time. */
  datatype State = State(verifying: bool, verifyUntil: int, baseRate: real, suppressUntil: Option<int>, suppress: int)

  const NEW: State := State(false, 0, 0.0, None, 0)

  /** One call: the time, the rate seen by the verdict, the utilization, the rate taken as baseline. */
  datatype Call = Call(now: int, rate: real, util: real, baseline: real)

  /** The call closes a verify window. */
  predicate Resolves(g: State, c: Call) { g.verifying && g.verifyUntil <= c.now }

  predicate Productive(g: State, c: Call) { c.rate >= g.baseRate * 1.05 }

  function Resolved(g: State, c: Call): State {
    if !Resolves(g, c) then g
    else if Productive(g, c) then g.(verifying := false, suppress := 0)
    else
      var hold := if g.suppress == 0 then SUPPRESS_MIN else Min(g.suppress * 2, SUPPRESS_MAX);
      g.(verifying := false, suppress := hold, suppressUntil := Some(c.now + hold))
  }

  predicate Grants(g: State, c: Call) {
    var r := Resolved(g, c);
    !r.verifying && !(r.suppressUntil.Some? && c.now < r.suppressUntil.value) && c.util < 0.9
  }

  function Tried(g: State, c: Call): State {
    if Grants(g, c) then
      Resolved(g, c).(verifying := true, verifyUntil := c.now + VERIFY_WINDOW, baseRate := c.baseline)
    else Resolved(g, c)
  }

  // ---------------------------------------------------------------- what one call comes to

  /** The last kill is settled: there was none, or its thirty seconds are over and the rate rose by a twentieth. */
  predicate Settled(g: State, c: Call) {
    g.verifying ==> g.verifyUntil <= c.now && c.rate * 20.0 >= g.baseRate * 21.0
  }

  /**
   A kill is granted exactly when the last one is settled, no hold is running and less than nine
   tenths of the bandwidth is in use.
   */
  lemma GrantsIff(g: State, c: Call)
    requires 0 <= g.suppress
    ensures Grants(g, c) <==>
              && Settled(g, c) && c.util * 10.0 < 9.0
              && (g.suppressUntil.Some? ==> g.suppressUntil.value <= c.now)
  {
  }

  /**
   A kill that is granted opens a window of thirty seconds from the rate at that moment. One that is
   found wanting starts a hold of thirty seconds, or twice the last one, up to five minutes.
   */
  lemma TriedIs(g: State, c: Call)
    ensures var g' := Tried(g, c);
            && (Grants(g, c) ==> g'.verifying && g'.verifyUntil == c.now + 30_000 && g'.baseRate == c.baseline)
            && (!Grants(g, c) ==> (g'.verifying <==> g.verifying && c.now < g.verifyUntil))
            && (if g.verifying && g.verifyUntil <= c.now && !Settled(g, c) then
                  && g'.suppress == (if g.suppress == 0 then 30_000 else Min(2 * g.suppress, 300_000))
                  && g'.suppressUntil == Some(c.now + g'.suppress)
                else
                  && g'.suppressUntil == g.suppressUntil
                  && g'.suppress == if g.verifying && g.verifyUntil <= c.now then 0 else g.suppress)
  {
  }

  // ---------------------------------------------------------------- the promised spacing

  /** The hold after k consecutive unproductive kills: 30 s doubling up to 5 min. */
  function Hold(k: nat): int { if k == 0 then 0 else Min(SUPPRESS_MIN * Pow2(k - 1), SUPPRESS_MAX) }

  lemma HoldDoubles(k: nat)
    ensures Hold(k + 1) == (if Hold(k) == 0 then SUPPRESS_MIN else Min(Hold(k) * 2, SUPPRESS_MAX))
    ensures Hold(k) == 0 <==> k == 0
  {
    if k > 0 { PowPositive(k - 1); }
  }

  /** Consecutive unproductive verifications, the one this call closes included. */
  function Streak(g: State, c: Call, k: nat): nat {
    if !Resolves(g, c) then k else if Productive(g, c) then 0 else k + 1
  }

  /** Where a gate stands after its last grant at `last` and a streak of k, at time `now`. */
  predicate Stands(g: State, last: int, k: nat, now: int) {
    && g.suppress == Hold(k) && last <= now
    && (g.verifying ==> g.verifyUntil == last + VERIFY_WINDOW)
    && (!g.verifying ==>
          && last + VERIFY_WINDOW <= now
          && (k > 0 ==> g.suppressUntil.Some? && last + VERIFY_WINDOW + Hold(k) <= g.suppressUntil.value))
  }

  lemma TryKeeps(g: State, c: Call, last: int, k: nat, now: int)
    requires Stands(g, last, k, now) && now <= c.now
    ensures Grants(g, c) ==> last + VERIFY_WINDOW + Hold(Streak(g, c, k)) <= c.now
    ensures Stands(Tried(g, c), if Grants(g, c) then c.now else last, Streak(g, c, k), c.now)
  {
    HoldDoubles(k);
  }

  predicate Timely(now: int, calls: seq<Call>)
    decreases |calls|
  {
    calls != [] ==> now <= calls[0].now && Timely(calls[0].now, calls[1..])
  }

  function Run(g: State, calls: seq<Call>): State
    decreases |calls|
  {
    if calls == [] then g else Run(Tried(g, calls[0]), calls[1..])
  }

  function RunStreak(g: State, calls: seq<Call>, k: nat): nat
    decreases |calls|
  {
    if calls == [] then k else RunStreak(Tried(g, calls[0]), calls[1..], Streak(g, calls[0], k))
  }

  /** No call in between is granted. */
  predicate Quiet(g: State, calls: seq<Call>)
    decreases |calls|
  {
    calls != [] ==> !Grants(g, calls[0]) && Quiet(Tried(g, calls[0]), calls[1..])
  }

  lemma {:induction false} QuietKeeps(g: State, calls: seq<Call>, last: int, k: nat, now: int)
    requires Stands(g, last, k, now) && Timely(now, calls) && Quiet(g, calls)
    ensures Stands(Run(g, calls), last, RunStreak(g, calls, k), if calls == [] then now else calls[|calls| - 1].now)
    decreases |calls|
  {
    if calls != [] {
      TryKeeps(g, calls[0], last, k, now);
      QuietKeeps(Tried(g, calls[0]), calls[1..], last, Streak(g, calls[0], k), calls[0].now);
    }
  }

  lemma {:induction false} TimelyEnd(now: int, calls: seq<Call>, c: Call)
    requires Timely(now, calls + [c])
    ensures Timely(now, calls) && (if calls == [] then now else calls[|calls| - 1].now) <= c.now
    decreases |calls|
  {
    if calls != [] {
      assert (calls + [c])[1..] == calls[1..] + [c];
      TimelyEnd(calls[0].now, calls[1..], c);
    }
  }

  /** A gate reached from new: its hold always matches its streak. */
  predicate Fits(g: State, k: nat) { g.suppress == Hold(k) }

  /**
   Between a granted kill and the next one lie the 30 s verify window and, after k consecutive
   unproductive verifications, 30 s doubled k - 1 times up to 5 min, whatever the rates say.
   */
  lemma NextKillWaits(g: State, k: nat, first: Call, between: seq<Call>, next: Call)
    requires Fits(g, k) && Grants(g, first) && Timely(first.now, between + [next])
    requires Quiet(Tried(g, first), between) && Grants(Run(Tried(g, first), between), next)
    ensures var k1 := Streak(g, first, k);
            var k2 := Streak(Run(Tried(g, first), between), next, RunStreak(Tried(g, first), between, k1));
            next.now - first.now >= VERIFY_WINDOW + Hold(k2)
  {
    HoldDoubles(k);
    var k1 := Streak(g, first, k);
    TimelyEnd(first.now, between, next);
    QuietKeeps(Tried(g, first), between, first.now, k1, first.now);
    TryKeeps(Run(Tried(g, first), between), next, first.now, RunStreak(Tried(g, first), between, k1),
             if between == [] then first.now else between[|between| - 1].now);
  }

  /** Every gate any run of calls produces has a hold that matches its streak. */
  lemma {:induction false} HoldMatchesStreak(g: State, calls: seq<Call>, k: nat)
    requires Fits(g, k)
    ensures Fits(Run(g, calls), RunStreak(g, calls, k))
    decreases |calls|
  {
    if calls != [] {
      HoldDoubles(k);
      HoldMatchesStreak(Tried(g, calls[0]), calls[1..], Streak(g, calls[0], k));
    }
  }

  /** Any two granted kills are a verify window apart, however many come in between. */
  lemma {:induction false} KillsApart(g: State, k: nat, last: int, now: int, calls: seq<Call>, c: Call)
    requires Stands(g, last, k, now) && Timely(now, calls + [c]) && Grants(Run(g, calls), c)
    ensures c.now - last >= VERIFY_WINDOW
    decreases |calls|
  {
    if calls == [] {
      assert calls + [c] == [c];
      TryKeeps(g, c, last, k, now);
      HoldPositive(Streak(g, c, k));
    } else {
      assert (calls + [c])[1..] == calls[1..] + [c];
      TryKeeps(g, calls[0], last, k, now);
      HoldPositive(Streak(g, calls[0], k));
      KillsApart(Tried(g, calls[0]), Streak(g, calls[0], k), if Grants(g, calls[0]) then calls[0].now else last,
                 calls[0].now, calls[1..], c);
    }
  }

  /** In every run from a new gate whose clock never goes back, two granted kills are 30 s apart. */
  lemma AnyTwoKills(before: seq<Call>, first: Call, between: seq<Call>, next: Call)
    requires Grants(Run(NEW, before), first) && Timely(first.now, between + [next])
    requires Grants(Run(Tried(Run(NEW, before), first), between), next)
    ensures next.now - first.now >= VERIFY_WINDOW
  {
    var k := RunStreak(NEW, before, 0);
    HoldMatchesStreak(NEW, before, 0);
    HoldDoubles(k);
    var g := Tried(Run(NEW, before), first);
    KillsApart(g, Streak(Run(NEW, before), first, k), first.now, first.now, between, next);
  }

  lemma HoldPositive(k: nat)
    ensures 0 <= Hold(k)
  {
    if k > 0 { PowPositive(k - 1); }
  }

  // ---------------------------------------------------------------- the gate in place

  class Gate {
    var verifying: bool
    var verifyUntil: int
    var baseRate: real
    var suppressUntil: Option<int>
    var suppress: int

    ghost function Now(): State
      reads this
    {
      State(verifying, verifyUntil, baseRate, suppressUntil, suppress)
    }

    constructor ()
      ensures Now() == NEW
    {
      verifying, verifyUntil, baseRate, suppressUntil, suppress := false, 0, 0.0, None, 0;
    }

    /** Close an elapsed verify window. */
    method Resolve(c: Call)
      modifies this
      ensures Now() == Resolved(old(Now()), c)
    {
      if !verifying || c.now < verifyUntil {
        return;
      }
      verifying := false;
      if c.rate >= baseRate * 1.05 {
        suppress := 0;
        return;
      }
      if suppress == 0 {
        suppress := SUPPRESS_MIN;
      } else {
        suppress := Min(suppress * 2, SUPPRESS_MAX);
      }
      suppressUntil := Some(c.now + suppress);
    }

    /** Check and claim in one step. */
    method TryKill(c: Call) returns (granted: bool)
      modifies this
      ensures Now() == Tried(old(Now()), c) && granted == Grants(old(Now()), c)
    {
      Resolve(c);
      if verifying || (suppressUntil.Some? && c.now < suppressUntil.value) {
        return false;
      }
      if c.util >= 0.9 {
        return false;
      }
      verifying, verifyUntil, baseRate := true, c.now + VERIFY_WINDOW, c.baseline;
      return true;
    }
  }
}
