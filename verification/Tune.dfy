/**
 The hill-climbing connection budget of pkg/tune/controller.go. Times are milliseconds, rates
 are reals. `Observe` is one tick as a function of the controller's state; the class runs the
 same tick in place.
 */
module Tune {
  import opened Base

  datatype Config = Config(
    settle: int, probeInterval: int, backoffStart: int, backoffMax: int, killFreeze: int,
    gain: real, utilCeiling: real)

  /** Zero and negative values take the defaults, positive ones are kept. */
  function WithDefaults(c: Config): (r: Config)
    ensures Tuned(r) && 0.0 < r.utilCeiling
  {
    Config(if c.settle <= 0 then 24_000 else c.settle,
           if c.probeInterval <= 0 then 5_000 else c.probeInterval,
           if c.backoffStart <= 0 then 30_000 else c.backoffStart,
           if c.backoffMax <= 0 then 300_000 else c.backoffMax,
           if c.killFreeze <= 0 then 30_000 else c.killFreeze,
           if c.gain <= 0.0 then 0.05 else c.gain,
           if c.utilCeiling <= 0.0 then 0.9 else c.utilCeiling)
  }

  /** A configuration that sets everything is left as it is; one that sets nothing gets these. */
  lemma DefaultsFillGaps(c: Config)
    ensures Tuned(c) && 0.0 < c.utilCeiling ==> WithDefaults(c) == c
    ensures DEFAULTS == Config(24_000, 5_000, 30_000, 300_000, 30_000, 0.05, 0.9)
  {
  }

  const DEFAULTS: Config := WithDefaults(Config(0, 0, 0, 0, 0, 0.0, 0.0))

  datatype Sample = Sample(rate: real, utilization: real, conns: int, kills: int)

  /** None in a time field is the zero time, before every instant. */
  datatype State = State(
    budget: int, prevBudget: int, probing: bool, seeded: bool,
    baseRate: real, settleUntil: int, nextProbeAt: Option<int>, backoff: int,
    freezeUntil: Option<int>, lastKills: Option<int>)

  const NEW: State := State(1, 0, false, false, 0.0, 0, None, 0, None, None)

  predicate Earlier(now: int, t: Option<int>) { t.Some? && now < t.value }

  /** Doubling while small, a quarter more afterwards. */
  function NextStep(budget: int): int {
    if budget < 8 then budget * 2 else budget + Max(1, budget / 4)
  }

  function Committed(c: State): int { if c.probing then c.prevBudget else c.budget }

  // ---------------------------------------------------------------- one tick

  function Seed(c: State, maxBudget: int): State {
    if c.seeded then c else c.(seeded := true, budget := Max(1, maxBudget / 2))
  }

  function Clamp(c: State, maxBudget: int): State {
    if c.budget > maxBudget then c.(budget := maxBudget, probing := false) else c
  }

  function NoteKills(cfg: Config, c: State, now: int, kills: int): State {
    if c.lastKills.None? then c.(lastKills := Some(kills))
    else if kills <= c.lastKills.value then c
    else
      var c1 := c.(lastKills := Some(kills), freezeUntil := Some(now + cfg.killFreeze));
      if c.probing then c1.(budget := c.prevBudget, probing := false) else c1
  }

  /** The verdict on a probe whose settle window is over. */
  function Judge(cfg: Config, c: State, now: int, rate: real): State {
    if rate >= c.baseRate * (1.0 + cfg.gain) then
      c.(probing := false, backoff := 0, nextProbeAt := Some(now + cfg.probeInterval))
    else
      var backoff := if c.backoff == 0 then cfg.backoffStart else Min(c.backoff * 2, cfg.backoffMax);
      c.(probing := false, budget := c.prevBudget, backoff := backoff, nextProbeAt := Some(now + backoff))
  }

  function Probe(cfg: Config, c: State, now: int, maxBudget: int, s: Sample): State {
    if Earlier(now, c.nextProbeAt) || Earlier(now, c.freezeUntil) || c.budget >= maxBudget then c
    else if s.utilization >= cfg.utilCeiling then c.(nextProbeAt := Some(now + cfg.probeInterval))
    else if s.conns * 4 < c.budget * 3 || s.rate <= 0.0 then c
    else
      c.(prevBudget := c.budget, baseRate := s.rate, budget := Min(NextStep(c.budget), maxBudget),
         probing := true, settleUntil := now + cfg.settle)
  }

  /** The state once the ceiling and the kills of this tick are taken in. */
  function Ready(cfg: Config, c: State, now: int, ceiling: int, s: Sample): State {
    NoteKills(cfg, Clamp(Seed(c, ceiling), ceiling), now, s.kills)
  }

  function Observe(cfg: Config, c: State, now: int, maxBudget: int, s: Sample): State {
    var ceiling := Max(maxBudget, 1);
    var c1 := Ready(cfg, c, now, ceiling, s);
    if c1.probing && now < c1.settleUntil then c1
    else if c1.probing then Judge(cfg, c1, now, s.rate)
    else Probe(cfg, c1, now, ceiling, s)
  }

  predicate Tuned(cfg: Config) {
    && 0 < cfg.settle && 0 < cfg.probeInterval && 0 < cfg.backoffStart && 0 < cfg.backoffMax && 0 < cfg.killFreeze
    && 0.0 < cfg.gain
  }

  // ---------------------------------------------------------------- invariants of every run

  /** A committed budget of at least one, and at most one growth step above it. */
  predicate Sane(cfg: Config, c: State) {
    && 1 <= Committed(c) <= c.budget <= NextStep(Committed(c))
    && (!c.seeded ==> c == NEW)
    && (c.backoff == 0 || Min(cfg.backoffStart, cfg.backoffMax) <= c.backoff)
  }

  /** Taking in ceiling and kills keeps the order and brings the budget under the ceiling. */
  lemma ReadySane(cfg: Config, c: State, now: int, ceiling: int, s: Sample)
    requires Sane(cfg, c) && 1 <= ceiling
    ensures var c1 := Ready(cfg, c, now, ceiling, s); Sane(cfg, c1) && c1.seeded && c1.budget <= ceiling
  {
    ClampSane(cfg, Seed(c, ceiling), ceiling);
  }

  lemma ClampSane(cfg: Config, c: State, ceiling: int)
    requires Sane(cfg, c) && 1 <= ceiling
    ensures var c1 := Clamp(c, ceiling); Sane(cfg, c1) && c1.seeded == c.seeded && c1.budget <= ceiling
  {
  }

  lemma JudgeSane(cfg: Config, c: State, now: int, rate: real)
    requires Sane(cfg, c) && Tuned(cfg) && c.seeded && c.probing
    ensures var c1 := Judge(cfg, c, now, rate); Sane(cfg, c1) && c1.seeded && c1.budget <= c.budget
  {
  }

  /** Every tick answers inside [1, ceiling] and keeps the speculative budget one step ahead at most. */
  lemma ObserveSane(cfg: Config, c: State, now: int, maxBudget: int, s: Sample)
    requires Sane(cfg, c) && Tuned(cfg)
    ensures var c' := Observe(cfg, c, now, maxBudget, s);
            Sane(cfg, c') && c'.seeded && 1 <= c'.budget <= Max(maxBudget, 1)
  {
    var c1 := Ready(cfg, c, now, Max(maxBudget, 1), s);
    ReadySane(cfg, c, now, Max(maxBudget, 1), s);
    if c1.probing && c1.settleUntil <= now { JudgeSane(cfg, c1, now, s.rate); }
  }

  datatype Tick = Tick(now: int, maxBudget: int, sample: Sample)

  function Observed(cfg: Config, c: State, ticks: seq<Tick>): State
    decreases |ticks|
  {
    if ticks == [] then c
    else Observed(cfg, Observe(cfg, c, ticks[0].now, ticks[0].maxBudget, ticks[0].sample), ticks[1..])
  }

  lemma {:induction false} ObservedSane(cfg: Config, c: State, ticks: seq<Tick>)
    requires Sane(cfg, c) && Tuned(cfg)
    ensures Sane(cfg, Observed(cfg, c, ticks))
    ensures ticks != [] ==> 1 <= Observed(cfg, c, ticks).budget <= Max(ticks[|ticks| - 1].maxBudget, 1)
    decreases |ticks|
  {
    if ticks != [] {
      var t := ticks[0];
      ObserveSane(cfg, c, t.now, t.maxBudget, t.sample);
      ObservedSane(cfg, Observe(cfg, c, t.now, t.maxBudget, t.sample), ticks[1..]);
    }
  }

  /** From a new controller, whatever is sampled: the published pair is ordered and inside the ceiling. */
  lemma BudgetsOrdered(config: Config, ticks: seq<Tick>)
    ensures var c := Observed(WithDefaults(config), NEW, ticks);
            && 1 <= Committed(c) <= c.budget <= NextStep(Committed(c))
            && (ticks != [] ==> c.budget <= Max(ticks[|ticks| - 1].maxBudget, 1))
  {
    ObservedSane(WithDefaults(config), NEW, ticks);
  }

  // ---------------------------------------------------------------- when the committed budget moves

  /** A probe that has settled and met its gain. */
  predicate Proved(cfg: Config, c: State, now: int, s: Sample) {
    && c.probing && c.settleUntil <= now && s.rate >= c.baseRate * (1.0 + cfg.gain)
    && (c.lastKills.Some? ==> s.kills <= c.lastKills.value)
  }

  /** What a lowered ceiling does: a probe in flight is cut to the ceiling and kept. */
  predicate Cut(c: State, ceiling: int) { c.budget > ceiling }

  /**
   After seeding, while the ceiling stays at or above the budget in force, the committed budget
   never falls, and it rises exactly when a settled probe met its gain, to the probed budget.
   */
  lemma CommittedMoves(cfg: Config, c: State, now: int, maxBudget: int, s: Sample)
    requires Sane(cfg, c) && Tuned(cfg) && c.seeded && !Cut(c, Max(maxBudget, 1))
    ensures var c' := Observe(cfg, c, now, maxBudget, s);
            Committed(c') == if Proved(cfg, c, now, s) then c.budget else Committed(c)
  {
  }

  /** A cut sets the committed budget to the ceiling: that may lower it, or raise it with no proof at all. */
  lemma CutCommits(cfg: Config, c: State, now: int, maxBudget: int, s: Sample)
    requires Sane(cfg, c) && Tuned(cfg) && c.seeded && Cut(c, Max(maxBudget, 1))
    ensures Committed(Observe(cfg, c, now, maxBudget, s)) == Max(maxBudget, 1)
  {
  }

  /** So a lowered ceiling raises the committed budget unproved exactly when it lands inside the probe step. */
  lemma UnprovedRise(cfg: Config, c: State, now: int, maxBudget: int, s: Sample)
    requires Sane(cfg, c) && Tuned(cfg) && c.seeded && !Proved(cfg, c, now, s)
    ensures Committed(c) < Committed(Observe(cfg, c, now, maxBudget, s))
       <==> Committed(c) < Max(maxBudget, 1) < c.budget
  {
  }

  /**
   A new controller reaches such a state in two ticks: the first seeds a committed budget of 8 and
   starts a probe of 10, the second lowers the ceiling to 9 before the probe has settled.
   */
  lemma UnprovedRiseHappens()
    ensures var first := Tick(0, 16, Sample(1.0, 0.0, 6, 0));
            var second := Tick(1, 9, Sample(0.0, 0.0, 6, 0));
            && Committed(Observed(DEFAULTS, NEW, [first])) == 8
            && !Proved(DEFAULTS, Observed(DEFAULTS, NEW, [first]), second.now, second.sample)
            && Committed(Observed(DEFAULTS, NEW, [first, second])) == 9
  {
    var first := Tick(0, 16, Sample(1.0, 0.0, 6, 0));
    var second := Tick(1, 9, Sample(0.0, 0.0, 6, 0));
    assert [first][1..] == [] && [first, second][1..] == [second] && [second][1..] == [];
    var c := Observe(DEFAULTS, NEW, 0, 16, first.sample);
    assert Observed(DEFAULTS, NEW, [first]) == c && c.budget == 10 && c.probing && c.settleUntil == 24_000;
    assert Observed(DEFAULTS, NEW, [first, second]) == Observed(DEFAULTS, c, [second])
        == Observe(DEFAULTS, c, 1, 9, second.sample);
  }

  /** A run in which neither the clock nor the ceiling goes back. */
  predicate Rising(ticks: seq<Tick>) {
    |ticks| > 1 ==>
      && ticks[0].now <= ticks[1].now && ticks[0].maxBudget <= ticks[1].maxBudget
      && Rising(ticks[1..])
  }

  /** Over such a run the committed budget never falls after the first tick. */
  lemma {:induction false} CommittedNeverFalls(cfg: Config, c: State, ticks: seq<Tick>, k: nat)
    requires Sane(cfg, c) && Tuned(cfg) && c.seeded && Rising(ticks) && k <= |ticks|
    requires ticks != [] ==> c.budget <= Max(ticks[0].maxBudget, 1)
    ensures Committed(c) <= Committed(Observed(cfg, c, ticks[..k])) <= Committed(Observed(cfg, c, ticks))
    decreases |ticks|
  {
    if ticks != [] {
      var t := ticks[0];
      var c' := Observe(cfg, c, t.now, t.maxBudget, t.sample);
      ObserveSane(cfg, c, t.now, t.maxBudget, t.sample);
      CommittedMoves(cfg, c, t.now, t.maxBudget, t.sample);
      CommittedNeverFalls(cfg, c', ticks[1..], if k == 0 then 0 else k - 1);
      if k > 0 { assert ticks[..k][1..] == ticks[1..][..k - 1]; }
    }
  }

  // ---------------------------------------------------------------- what one tick comes to

  /** The budget in force before a tick: the first tick starts from half the ceiling. */
  function Standing(c: State, maxBudget: int): int {
    if c.seeded then c.budget else Max(1, Max(maxBudget, 1) / 2)
  }

  /** More kills than at the last tick; the first count seen is only noted. */
  predicate Killed(c: State, s: Sample) { c.lastKills.Some? && c.lastKills.value < s.kills }

  predicate Reached(t: Option<int>, now: int) { t.Some? ==> t.value <= now }

  /** Idle, nothing killed, neither backing off nor frozen, and below the ceiling. */
  predicate MayProbe(c: State, t: Tick) {
    && !c.probing && !Killed(c, t.sample) && Reached(c.nextProbeAt, t.now) && Reached(c.freezeUntil, t.now)
    && Standing(c, t.maxBudget) < Max(t.maxBudget, 1)
  }

  /**
   A probe starts exactly when it may, the bandwidth has room, at least three quarters of the
   budget are in use and bytes are flowing.
   */
  lemma StartsIff(cfg: Config, c: State, t: Tick)
    requires Sane(cfg, c) && Tuned(cfg)
    ensures Starts(cfg, c, t) <==>
              && MayProbe(c, t) && t.sample.utilization < cfg.utilCeiling
              && 3 * Standing(c, t.maxBudget) <= 4 * t.sample.conns && 0.0 < t.sample.rate
  {
  }

  /** It doubles a budget below eight and adds a quarter to a larger one, up to the ceiling, and is judged later. */
  lemma ProbeIs(cfg: Config, c: State, t: Tick)
    requires Sane(cfg, c) && Tuned(cfg) && Starts(cfg, c, t)
    ensures var c', b := Observe(cfg, c, t.now, t.maxBudget, t.sample), Standing(c, t.maxBudget);
            && c'.probing && c'.prevBudget == b && b < c'.budget
            && c'.budget == Min(if b < 8 then 2 * b else b + b / 4, Max(t.maxBudget, 1))
            && c'.settleUntil == t.now + cfg.settle && c'.baseRate == t.sample.rate
            && c'.backoff == c.backoff && c'.freezeUntil == c.freezeUntil
  {
    StartsIff(cfg, c, t);
  }

  /** The state with the first kill count noted and the budget seeded and under the ceiling. */
  function Standard(c: State, t: Tick): State {
    c.(seeded := true, budget := Min(Standing(c, t.maxBudget), Max(t.maxBudget, 1)),
       lastKills := Some(if c.lastKills.Some? then c.lastKills.value else t.sample.kills))
  }

  /** A full link puts off the next probe by the probe interval and changes nothing else. */
  lemma FullLinkWaits(cfg: Config, c: State, t: Tick)
    requires Sane(cfg, c) && Tuned(cfg) && MayProbe(c, t) && cfg.utilCeiling <= t.sample.utilization
    ensures Observe(cfg, c, t.now, t.maxBudget, t.sample)
         == Standard(c, t).(nextProbeAt := Some(t.now + cfg.probeInterval))
  {
  }

  /** Any other idle tick, and one that cuts a probe at the ceiling, leaves the schedule as it is. */
  lemma IdleTick(cfg: Config, c: State, t: Tick)
    requires Sane(cfg, c) && Tuned(cfg) && !Killed(c, t.sample) && (!c.probing || Cut(c, Max(t.maxBudget, 1)))
    requires !Starts(cfg, c, t) && !(MayProbe(c, t) && cfg.utilCeiling <= t.sample.utilization)
    ensures Observe(cfg, c, t.now, t.maxBudget, t.sample) == Standard(c, t).(probing := false)
  {
  }

  /** A probe that nothing has cut short is on trial until its window is over. */
  predicate OnTrial(c: State, t: Tick) {
    c.probing && c.seeded && c.budget <= Max(t.maxBudget, 1) && !Killed(c, t.sample)
  }

  predicate Wins(cfg: Config, c: State, t: Tick) {
    OnTrial(c, t) && c.settleUntil <= t.now && c.baseRate * (1.0 + cfg.gain) <= t.sample.rate
  }

  predicate Fails(cfg: Config, c: State, t: Tick) {
    OnTrial(c, t) && c.settleUntil <= t.now && t.sample.rate < c.baseRate * (1.0 + cfg.gain)
  }

  /** How a trial goes: it lasts, or the budget stays and the backoff ends, or the budget falls back. */
  lemma TrialIs(cfg: Config, c: State, t: Tick)
    requires Sane(cfg, c) && Tuned(cfg) && OnTrial(c, t)
    ensures var c' := Observe(cfg, c, t.now, t.maxBudget, t.sample);
            && c'.lastKills == Standard(c, t).lastKills && c'.freezeUntil == c.freezeUntil
            && (t.now < c.settleUntil ==> c' == Standard(c, t))
            && (Wins(cfg, c, t) ==>
                  && !c'.probing && c'.budget == c.budget && c'.backoff == 0
                  && c'.nextProbeAt == Some(t.now + cfg.probeInterval))
            && (Fails(cfg, c, t) ==>
                  && !c'.probing && c'.budget == c.prevBudget
                  && c'.backoff == (if c.backoff == 0 then cfg.backoffStart else Min(2 * c.backoff, cfg.backoffMax))
                  && c'.nextProbeAt == Some(t.now + c'.backoff))
  {
  }

  /** A kill drops the probe in flight and freezes probing for a while; the backoff is left alone. */
  lemma KillFreezes(cfg: Config, c: State, t: Tick)
    requires Sane(cfg, c) && Tuned(cfg) && c.seeded && Killed(c, t.sample)
    ensures var c' := Observe(cfg, c, t.now, t.maxBudget, t.sample);
            && !c'.probing && c'.freezeUntil == Some(t.now + cfg.killFreeze)
            && c'.budget == (if Max(t.maxBudget, 1) < c.budget then Max(t.maxBudget, 1) else Committed(c))
            && c'.backoff == c.backoff && c'.lastKills == Some(t.sample.kills)
  {
  }

  // ---------------------------------------------------------------- how long it backs off

  /** The backoff after k failed probes in a row: the first is not capped, the others double up to the cap. */
  function Backoff(cfg: Config, k: nat): int {
    if k == 0 then 0 else if k == 1 then cfg.backoffStart else Min(cfg.backoffStart * Pow2(k - 1), cfg.backoffMax)
  }

  lemma BackoffDoubles(cfg: Config, k: nat)
    requires Tuned(cfg)
    ensures Backoff(cfg, k + 1) == if k == 0 then cfg.backoffStart else Min(2 * Backoff(cfg, k), cfg.backoffMax)
    ensures 0 < Backoff(cfg, k) <==> 0 < k
    ensures Backoff(cfg, 0) == 0
  {
    if k > 0 {
      PowPositive(k - 1);
      StartGrows(cfg.backoffStart, k - 1);
    }
  }

  lemma StartGrows(start: int, k: nat)
    requires 0 < start
    ensures 0 < start * Pow2(k) && start * Pow2(k + 1) == 2 * (start * Pow2(k))
  {
    PowPositive(k);
    assert start * 1 <= start * Pow2(k);
  }

  /** Failed probes since the last one that proved its gain. */
  function FailsInARow(cfg: Config, c: State, ticks: seq<Tick>, k: nat): nat
    decreases |ticks|
  {
    if ticks == [] then k
    else
      var t := ticks[0];
      FailsInARow(cfg, Observe(cfg, c, t.now, t.maxBudget, t.sample), ticks[1..],
                  if Wins(cfg, c, t) then 0 else if Fails(cfg, c, t) then k + 1 else k)
  }

  lemma BackoffStep(cfg: Config, c: State, t: Tick, k: nat)
    requires Sane(cfg, c) && Tuned(cfg) && c.backoff == Backoff(cfg, k)
    ensures Observe(cfg, c, t.now, t.maxBudget, t.sample).backoff
         == Backoff(cfg, if Wins(cfg, c, t) then 0 else if Fails(cfg, c, t) then k + 1 else k)
  {
    BackoffDoubles(cfg, k);
  }

  lemma {:induction false} BackoffRun(cfg: Config, c: State, ticks: seq<Tick>, k: nat)
    requires Sane(cfg, c) && Tuned(cfg) && c.backoff == Backoff(cfg, k)
    ensures Observed(cfg, c, ticks).backoff == Backoff(cfg, FailsInARow(cfg, c, ticks, k))
    decreases |ticks|
  {
    if ticks != [] {
      var t := ticks[0];
      BackoffStep(cfg, c, t, k);
      ObserveSane(cfg, c, t.now, t.maxBudget, t.sample);
      BackoffRun(cfg, Observe(cfg, c, t.now, t.maxBudget, t.sample), ticks[1..],
                 if Wins(cfg, c, t) then 0 else if Fails(cfg, c, t) then k + 1 else k);
    }
  }

  /** After every run of a new controller the backoff is the one for its failures in a row. */
  lemma BackoffMatchesFailures(config: Config, ticks: seq<Tick>)
    ensures var cfg := WithDefaults(config);
            Observed(cfg, NEW, ticks).backoff == Backoff(cfg, FailsInARow(cfg, NEW, ticks, 0))
  {
    BackoffRun(WithDefaults(config), NEW, ticks, 0);
  }

  // ---------------------------------------------------------------- how often it probes

  /** The least distance between two probe starts. */
  function MinGap(cfg: Config): int {
    Min(cfg.settle + Min(cfg.probeInterval, Min(cfg.backoffStart, cfg.backoffMax)), cfg.killFreeze)
  }

  predicate Starts(cfg: Config, c: State, t: Tick) {
    var c' := Observe(cfg, c, t.now, t.maxBudget, t.sample);
    c'.probing && !Ready(cfg, c, t.now, Max(t.maxBudget, 1), t.sample).probing
  }

  predicate NotBefore(t: Option<int>, x: int) { t.Some? && x <= t.value }

  /** What holds the next start back, given the time of the last one. */
  predicate Spaced(cfg: Config, c: State, last: int) {
    if c.probing then c.settleUntil == last + cfg.settle
    else NotBefore(c.nextProbeAt, last + MinGap(cfg)) || NotBefore(c.freezeUntil, last + MinGap(cfg))
  }

  lemma SpacedKept(cfg: Config, c: State, last: int, t: Tick)
    requires Sane(cfg, c) && Tuned(cfg) && c.seeded && Spaced(cfg, c, last)
    requires last <= t.now && c.budget <= Max(t.maxBudget, 1)
    ensures var c' := Observe(cfg, c, t.now, t.maxBudget, t.sample);
            if Starts(cfg, c, t) then last + MinGap(cfg) <= t.now && Spaced(cfg, c', t.now) else Spaced(cfg, c', last)
  {
  }

  lemma {:induction false} SpacedRun(cfg: Config, c: State, last: int, ticks: seq<Tick>, j: nat)
    requires Sane(cfg, c) && Tuned(cfg) && c.seeded && Spaced(cfg, c, last) && Rising(ticks) && j < |ticks|
    requires last <= ticks[0].now && c.budget <= Max(ticks[0].maxBudget, 1)
    requires Starts(cfg, Observed(cfg, c, ticks[..j]), ticks[j])
    ensures last + MinGap(cfg) <= ticks[j].now
    decreases |ticks|
  {
    var t := ticks[0];
    SpacedKept(cfg, c, last, t);
    if j > 0 {
      var c' := Observe(cfg, c, t.now, t.maxBudget, t.sample);
      ObserveSane(cfg, c, t.now, t.maxBudget, t.sample);
      assert ticks[..j][1..] == ticks[1..][..j - 1];
      SpacedRun(cfg, c', if Starts(cfg, c, t) then t.now else last, ticks[1..], j - 1);
    }
  }

  lemma {:induction false} ObservedSplit(cfg: Config, c: State, a: seq<Tick>, b: seq<Tick>)
    ensures Observed(cfg, c, a + b) == Observed(cfg, Observed(cfg, c, a), b)
    decreases |a|
  {
    if a == [] {
      assert a + b == b;
    } else {
      assert (a + b)[1..] == a[1..] + b;
      ObservedSplit(cfg, Observe(cfg, c, a[0].now, a[0].maxBudget, a[0].sample), a[1..], b);
    }
  }

  lemma {:induction false} RisingTail(ticks: seq<Tick>, i: nat)
    requires Rising(ticks) && i < |ticks|
    ensures Rising(ticks[i..])
    decreases i
  {
    if i > 0 {
      RisingTail(ticks[1..], i - 1);
      assert ticks[1..][i - 1..] == ticks[i..];
    }
  }

  /** The state before tick j, seen from just after tick i. */
  lemma Resumed(cfg: Config, c: State, ticks: seq<Tick>, i: nat, j: nat)
    requires i < j < |ticks|
    ensures var t := ticks[i];
            var c' := Observe(cfg, Observed(cfg, c, ticks[..i]), t.now, t.maxBudget, t.sample);
            Observed(cfg, c, ticks[..j]) == Observed(cfg, c', ticks[i + 1..][..j - i - 1])
  {
    assert ticks[..j] == ticks[..i] + ([ticks[i]] + ticks[i + 1..j]);
    ObservedSplit(cfg, c, ticks[..i], [ticks[i]] + ticks[i + 1..j]);
    assert ([ticks[i]] + ticks[i + 1..j])[1..] == ticks[i + 1..j] == ticks[i + 1..][..j - i - 1];
  }

  lemma RisingAfter(ticks: seq<Tick>, i: nat)
    requires Rising(ticks) && i + 1 < |ticks|
    ensures Rising(ticks[i + 1..]) && ticks[i].now <= ticks[i + 1].now && ticks[i].maxBudget <= ticks[i + 1].maxBudget
  {
    RisingTail(ticks, i);
    assert ticks[i..][1..] == ticks[i + 1..] && ticks[i..][0] == ticks[i] && ticks[i..][1] == ticks[i + 1];
  }

  /** In a run whose clock and ceiling never go back, any two probe starts are at least MinGap apart. */
  lemma ProbesApart(config: Config, ticks: seq<Tick>, i: nat, j: nat)
    requires Rising(ticks) && i < j < |ticks|
    requires Starts(WithDefaults(config), Observed(WithDefaults(config), NEW, ticks[..i]), ticks[i])
    requires Starts(WithDefaults(config), Observed(WithDefaults(config), NEW, ticks[..j]), ticks[j])
    ensures ticks[j].now - ticks[i].now >= MinGap(WithDefaults(config))
  {
    var cfg := WithDefaults(config);
    ObservedSane(cfg, NEW, ticks[..i]);
    Resumed(cfg, NEW, ticks, i, j);
    RisingAfter(ticks, i);
    StartThenStart(cfg, Observed(cfg, NEW, ticks[..i]), ticks[i], ticks[i + 1..], j - i - 1);
  }

  lemma StartThenStart(cfg: Config, c: State, t: Tick, rest: seq<Tick>, k: nat)
    requires Sane(cfg, c) && Tuned(cfg) && Starts(cfg, c, t) && Rising(rest) && k < |rest|
    requires t.now <= rest[0].now && t.maxBudget <= rest[0].maxBudget
    requires Starts(cfg, Observed(cfg, Observe(cfg, c, t.now, t.maxBudget, t.sample), rest[..k]), rest[k])
    ensures rest[k].now - t.now >= MinGap(cfg)
  {
    ObserveSane(cfg, c, t.now, t.maxBudget, t.sample);
    SpacedRun(cfg, Observe(cfg, c, t.now, t.maxBudget, t.sample), t.now, rest, k);
  }

  /** With the default configuration that is 29 seconds. */
  lemma DefaultGap()
    ensures MinGap(DEFAULTS) == 29_000
  {
  }

  // ---------------------------------------------------------------- the controller in place

  class Controller {
    const cfg: Config
    var budget: int
    var prevBudget: int
    var probing: bool
    var seeded: bool
    var baseRate: real
    var settleUntil: int
    var nextProbeAt: Option<int>
    var backoff: int
    var freezeUntil: Option<int>
    var lastKills: Option<int>

    ghost function Now(): State
      reads this
    {
      State(budget, prevBudget, probing, seeded, baseRate, settleUntil, nextProbeAt, backoff, freezeUntil, lastKills)
    }

    ghost predicate Valid()
      reads this
    {
      Tuned(cfg) && Sane(cfg, Now())
    }

    constructor (config: Config)
      ensures Valid() && cfg == WithDefaults(config) && Now() == NEW
    {
      cfg := WithDefaults(config);
      budget, prevBudget, probing, seeded := 1, 0, false, false;
      baseRate, settleUntil, nextProbeAt, backoff := 0.0, 0, None, 0;
      freezeUntil, lastKills := None, None;
    }

    /** The last accepted budget: what admission may rely on. */
    method LastCommitted() returns (r: int)
      requires Valid()
      ensures r == Committed(Now()) && 1 <= r <= budget
    {
      if probing {
        return prevBudget;
      }
      return budget;
    }

    /** Take in the ceiling and the kill count; drop a probe they invalidate. */
    method Prepare(now: int, ceiling: int, kills: int)
      modifies this
      ensures Now() == NoteKills(cfg, Clamp(Seed(old(Now()), ceiling), ceiling), now, kills)
    {
      if !seeded {
        seeded := true;
        budget := Max(1, ceiling / 2);
      }
      if budget > ceiling {
        budget := ceiling;
        probing := false;
      }
      if lastKills.None? {
        lastKills := Some(kills);
      } else if kills > lastKills.value {
        lastKills := Some(kills);
        freezeUntil := Some(now + cfg.killFreeze);
        if probing {
          budget := prevBudget;
          probing := false;
        }
      }
    }

    /** Settle the probe in flight. */
    method Settle(now: int, rate: real)
      modifies this
      ensures Now() == Judge(cfg, old(Now()), now, rate)
    {
      probing := false;
      if rate >= baseRate * (1.0 + cfg.gain) {
        backoff := 0;
        nextProbeAt := Some(now + cfg.probeInterval);
      } else {
        budget := prevBudget;
        if backoff == 0 {
          backoff := cfg.backoffStart;
        } else {
          backoff := Min(backoff * 2, cfg.backoffMax);
        }
        nextProbeAt := Some(now + backoff);
      }
    }

    /** Feed one tick's sample; the answer is the budget to enforce. */
    method Feed(now: int, maxBudget: int, s: Sample) returns (r: int)
      requires Valid()
      modifies this
      ensures Valid() && Now() == Observe(cfg, old(Now()), now, maxBudget, s)
      ensures r == budget && 1 <= r <= Max(maxBudget, 1)
    {
      ObserveSane(cfg, Now(), now, maxBudget, s);
      var ceiling := Max(maxBudget, 1);
      Prepare(now, ceiling, s.kills);
      if probing {
        if now < settleUntil {
          return budget;
        }
        Settle(now, s.rate);
        return budget;
      }
      if Earlier(now, nextProbeAt) || Earlier(now, freezeUntil) {
        return budget;
      }
      if budget >= ceiling {
        return budget;
      }
      if s.utilization >= cfg.utilCeiling {
        nextProbeAt := Some(now + cfg.probeInterval);
        return budget;
      }
      if s.conns * 4 < budget * 3 || s.rate <= 0.0 {
        return budget;
      }
      prevBudget, baseRate := budget, s.rate;
      budget := Min(NextStep(budget), ceiling);
      probing, settleUntil := true, now + cfg.settle;
      return budget;
    }
  }
}
