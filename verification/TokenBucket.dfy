/**
 The token bucket of pkg/throttle/bucket.go with tokens and seconds as reals. A Wait is served
 in installments of at most the burst; each installment is one step under the bucket's lock, so
 a run of the bucket is a sequence of installments of any number of callers.
 */
module TokenBucket {
  import opened Base

  datatype State = State(rate: int, burst: int, tokens: real, last: real)

  function RMin(a: real, b: real): real { if a <= b then a else b }

  function RMax(a: real, b: real): real { if a <= b then b else a }

  /** A limited bucket has room for at least one token. */
  predicate Configured(b: State) { b.rate >= 0 && (b.rate > 0 ==> b.burst >= 1) && 0.0 <= b.tokens }

  function NewBucket(perSec: int, burst: int, start: int, now: real): (b: State)
    ensures Configured(b)
  {
    var rate := Max(perSec, 0);
    State(rate, if rate > 0 then Max(burst, 1) else burst, Max(start, 0) as real, now)
  }

  /** The tokens that accrue from one instant to another. */
  function Accrual(rate: int, from: real, to: real): real { rate as real * (to - from) }

  lemma AccrualSplits(rate: int, s: real, m: real, t: real)
    ensures Accrual(rate, s, m) + Accrual(rate, m, t) == Accrual(rate, s, t) && Accrual(rate, s, s) == 0.0
  {
  }

  /** Accrue for the time since the last refill, capped at the burst. */
  function Refilled(b: State, now: real): State {
    if b.rate <= 0 then b.(last := now)
    else if now <= b.last then b
    else b.(last := now, tokens := RMin(b.tokens + Accrual(b.rate, b.last, now), b.burst as real))
  }

  /** One installment: what it takes, or nothing if there are not enough tokens. */
  function Taken(b: State, now: real, want: int): int {
    var take := Min(want, b.burst);
    if Refilled(b, now).tokens >= take as real then take else 0
  }

  function Served(b: State, now: real, want: int): State {
    var b1 := Refilled(b, now);
    b1.(tokens := b1.tokens - Taken(b, now, want) as real)
  }

  function Reconfigured(b: State, now: real, perSec: int, burst: int): State {
    var b1 := Refilled(b, now);
    var rate := Max(perSec, 0);
    var cap := if rate > 0 then Max(burst, 1) else burst;
    if rate > 0 then State(rate, cap, RMax(RMin(b1.tokens, cap as real), 0.0), b1.last)
    else State(rate, cap, b1.tokens, b1.last)
  }

  // ---------------------------------------------------------------- what one call comes to

  /** The balance at a given time: old balance plus rate times elapsed seconds, at most the burst. */
  function Level(b: State, now: real): real {
    if now <= b.last then b.tokens else RMin(b.tokens + b.rate as real * (now - b.last), b.burst as real)
  }

  lemma LevelIs(b: State, now: real)
    requires 0 < b.rate
    ensures Refilled(b, now).tokens == Level(b, now)
  {
    if b.last < now {
      var accrued := Accrual(b.rate, b.last, now);
      assert accrued == b.rate as real * (now - b.last);
      assert Refilled(b, now).tokens == RMin(b.tokens + accrued, b.burst as real);
    }
  }

  /** An installment is paid in full exactly when the balance covers it, and leaves the rest. */
  lemma TakenIff(b: State, now: real, want: int)
    requires Limited(b) && want > 0
    ensures Taken(b, now, want) == if Min(want, b.burst) as real <= Level(b, now) then Min(want, b.burst) else 0
    ensures var b' := Served(b, now, want);
            && b'.tokens == Level(b, now) - Taken(b, now, want) as real
            && b'.last == RMax(b.last, now) && b'.rate == b.rate && b'.burst == b.burst
  {
    LevelIs(b, now);
  }

  /** A new rate takes effect after the old one has been paid out, and trims the balance to the new burst. */
  lemma ReconfiguredIs(b: State, now: real, perSec: int, burst: int)
    requires Configured(b)
    ensures var b' := Reconfigured(b, now, perSec, burst);
            var level := if b.rate > 0 then Level(b, now) else b.tokens;
            && b'.rate == Max(perSec, 0)
            && b'.burst == (if perSec > 0 then Max(burst, 1) else burst)
            && b'.tokens == (if perSec > 0 then RMin(level, Max(burst, 1) as real) else level)
            && b'.last == (if b.rate > 0 then RMax(b.last, now) else now)
  {
    if b.rate > 0 && b.last < now {
      Accrues(b.rate, b.last, now);
      assert Refilled(b, now).tokens == Level(b, now) by { LevelIs(b, now); }
    }
  }

  /** How long a caller sleeps that finds too few tokens: the deficit at the current rate. */
  function Delay(b: State, want: int): real
    requires b.rate > 0
  {
    (Min(want, b.burst) as real - b.tokens) / b.rate as real
  }

  lemma Scaled(d: real, r: real, x: real)
    requires 0.0 < r
    ensures d / r <= x <==> d <= r * x
    ensures r * (d / r) == d
  {
    assert r * (d / r) == d;
    if d / r <= x { assert r * (d / r) <= r * x; }
    if x < d / r { assert r * x < r * (d / r); }
  }

  /** Short of tokens at its last refill, a bucket pays from the end of that sleep on. */
  lemma PaidFrom(b: State, t: real, want: int)
    requires Limited(b) && want > 0 && b.last <= t && b.tokens < Min(want, b.burst) as real
    ensures 0.0 < Delay(b, want) && (Taken(b, t, want) > 0 <==> b.last + Delay(b, want) <= t)
  {
    var deficit := Min(want, b.burst) as real - b.tokens;
    TakenIff(b, t, want);
    Scaled(deficit, b.rate as real, t - b.last);
    Scaled(deficit, b.rate as real, 0.0);
  }

  /** Left alone, a caller that was refused is paid at the end of that sleep and at no time before. */
  lemma DelayIsExact(b: State, now: real, want: int, t: real)
    requires Limited(b) && want > 0 && Taken(b, now, want) == 0 && b.last <= now <= t
    ensures 0.0 < Delay(Served(b, now, want), want)
    ensures Taken(Served(b, now, want), t, want) > 0 <==> now + Delay(Served(b, now, want), want) <= t
  {
    TakenIff(b, now, want);
    ServedWithin(b, now, want);
    PaidFrom(Served(b, now, want), t, want);
  }

  /** The turns of a caller nobody interferes with: try, sleep out the deficit, try again. */
  function Alone(b: State, now: real, n: int): seq<Ask>
    requires Limited(b) && b.last <= now && n > 0
    decreases n, Taken(b, now, n) == 0
  {
    ServedWithin(b, now, n);
    var b1 := Served(b, now, n);
    var took := Taken(b, now, n);
    [Ask(now, n)] +
    if took == n then []
    else if took > 0 then Alone(b1, now, n - took)
    else DelayIsExact(b, now, n, now); DelayIsExact(b, now, n, now + Delay(b1, n)); Alone(b1, now + Delay(b1, n), n)
  }

  /** When balance and accrual have covered n tokens. */
  function Covered(b: State, now: real, n: int): real
    requires b.rate > 0
  {
    RMax(now, now + (n as real - Level(b, now)) / b.rate as real)
  }

  lemma CoveredNow(b: State, now: real, n: int)
    requires Limited(b) && n > 0 && Taken(b, now, n) == n
    ensures Covered(b, now, n) == now
  {
    TakenIff(b, now, n);
    Scaled(n as real - Level(b, now), b.rate as real, 0.0);
  }

  /** Paying part of it, or sleeping out the deficit, does not move that time. */
  lemma CoveredByPart(b: State, now: real, n: int)
    requires Limited(b) && n > 0 && b.last <= now && 0 < Taken(b, now, n) < n
    ensures Covered(Served(b, now, n), now, n - Taken(b, now, n)) == Covered(b, now, n)
  {
    TakenIff(b, now, n);
    var left := (n - Taken(b, now, n)) as real - Served(b, now, n).tokens;
    assert left == n as real - Level(b, now);
  }

  lemma CoveredBySleep(b: State, now: real, n: int)
    requires Limited(b) && n > 0 && b.last <= now && Taken(b, now, n) == 0
    ensures var b1 := Served(b, now, n); Covered(b1, now + Delay(b1, n), n) == Covered(b, now, n)
  {
    TakenIff(b, now, n);
    DelayIsExact(b, now, n, now);
    var b1, take := Served(b, now, n), Min(n, b.burst) as real;
    Scaled(take - b1.tokens, b.rate as real, 0.0);
    assert Level(b1, now + Delay(b1, n)) == take;
    SleepThenRest(now, b.rate as real, n as real, take, b1.tokens);
  }

  /**
   Such a caller gets its n tokens, however n compares with the burst, and is done exactly when
   balance and accrual have covered them: (n - balance) / rate seconds later, or at once.
   */
  lemma {:induction false} AloneTakesExactly(b: State, now: real, n: int)
    requires Limited(b) && b.last <= now && n > 0
    ensures var asks := Alone(b, now, n);
            asks != [] && Timely(b.last, asks) && GrantedIn(b, asks) == n && EndOf(b.last, asks) == Covered(b, now, n)
    decreases n, Taken(b, now, n) == 0
  {
    ServedWithin(b, now, n);
    var b1, took := Served(b, now, n), Taken(b, now, n);
    var asks := Alone(b, now, n);
    if took == n {
      CoveredNow(b, now, n);
      assert asks == [Ask(now, n)] && asks[1..] == [];
    } else if took > 0 {
      CoveredByPart(b, now, n);
      AloneTakesExactly(b1, now, n - took);
      assert asks[1..] == Alone(b1, now, n - took);
    } else {
      CoveredBySleep(b, now, n);
      DelayIsExact(b, now, n, now);
      DelayIsExact(b, now, n, now + Delay(b1, n));
      AloneTakesExactly(b1, now + Delay(b1, n), n);
      assert asks[1..] == Alone(b1, now + Delay(b1, n), n);
    }
  }

  lemma SleepThenRest(now: real, r: real, n: real, take: real, level: real)
    requires 0.0 < r && level < take <= n
    ensures var t := now + (take - level) / r;
            RMax(t, t + (n - take) / r) == RMax(now, now + (n - level) / r)
  {
    Scaled(n - take, r, 0.0);
    Scaled(n - level, r, 0.0);
    assert (take - level) / r + (n - take) / r == (n - level) / r;
  }

  // ---------------------------------------------------------------- one bucket, many callers

  /** A caller asks for an installment at some time. */
  datatype Ask = Ask(now: real, want: int)

  predicate Timely(now: real, asks: seq<Ask>)
    decreases |asks|
  {
    asks != [] ==> now <= asks[0].now && asks[0].want > 0 && Timely(asks[0].now, asks[1..])
  }

  function Run(b: State, asks: seq<Ask>): State
    decreases |asks|
  {
    if asks == [] then b else Run(Served(b, asks[0].now, asks[0].want), asks[1..])
  }

  function GrantedIn(b: State, asks: seq<Ask>): int
    decreases |asks|
  {
    if asks == [] then 0
    else Taken(b, asks[0].now, asks[0].want) + GrantedIn(Served(b, asks[0].now, asks[0].want), asks[1..])
  }

  predicate Limited(b: State) { b.rate > 0 && b.burst >= 1 && 0.0 <= b.tokens }

  /** Serving keeps the balance non-negative and, once within the burst, within it. */
  lemma ServedWithin(b: State, now: real, want: int)
    requires Limited(b) && want > 0
    ensures var b' := Served(b, now, want);
            && Limited(b') && b'.rate == b.rate && b'.burst == b.burst
            && b'.tokens <= RMax(b.tokens, b.burst as real)
            && (b.tokens <= b.burst as real ==> b'.tokens <= b'.burst as real)
            && 0 <= Taken(b, now, want) <= b.burst
            && b'.last == (if b.last < now then now else b.last)
            && b'.tokens + Taken(b, now, want) as real <= b.tokens + Accrual(b.rate, b.last, b'.last)
  {
    AccrualSplits(b.rate, b.last, b.last, b.last);
    if b.last < now { Accrues(b.rate, b.last, now); }
  }

  lemma Accrues(rate: int, s: real, t: real)
    requires 0 <= rate && s <= t
    ensures 0.0 <= Accrual(rate, s, t)
  {
  }

  /** The last instant a run refilled to, or its start. */
  function EndOf(now: real, asks: seq<Ask>): real { if asks == [] then now else asks[|asks| - 1].now }

  /** Tokens stay in [0, burst] over any interleaving of callers. */
  lemma {:induction false} TokensWithin(b: State, asks: seq<Ask>)
    requires Limited(b) && b.tokens <= b.burst as real && Timely(b.last, asks)
    ensures var b' := Run(b, asks);
            Limited(b') && 0.0 <= b'.tokens <= b'.burst as real && b'.burst == b.burst && b'.rate == b.rate
            && b'.last == EndOf(b.last, asks)
    decreases |asks|
  {
    if asks != [] {
      ServedWithin(b, asks[0].now, asks[0].want);
      TokensWithin(Served(b, asks[0].now, asks[0].want), asks[1..]);
    }
  }

  /** Conservation: what is granted comes out of the balance and the accrual. */
  lemma {:induction false} Conserved(b: State, asks: seq<Ask>)
    requires Limited(b) && Timely(b.last, asks)
    ensures 0 <= GrantedIn(b, asks)
    ensures GrantedIn(b, asks) as real <= b.tokens + Accrual(b.rate, b.last, EndOf(b.last, asks))
    decreases |asks|
  {
    if asks != [] {
      var a := asks[0];
      var b' := Served(b, a.now, a.want);
      ServedWithin(b, a.now, a.want);
      Conserved(b', asks[1..]);
      AccrualSplits(b.rate, b.last, a.now, EndOf(a.now, asks[1..]));
      assert EndOf(a.now, asks[1..]) == EndOf(b.last, asks);
    } else {
      AccrualSplits(b.rate, b.last, b.last, b.last);
    }
  }

  /** What one refill spills over the burst. */
  function Spill(b: State, now: real): real {
    if now <= b.last then 0.0 else RMax(b.tokens + Accrual(b.rate, b.last, now) - b.burst as real, 0.0)
  }

  function Spilled(b: State, asks: seq<Ask>): real
    decreases |asks|
  {
    if asks == [] then 0.0
    else Spill(b, asks[0].now) + Spilled(Served(b, asks[0].now, asks[0].want), asks[1..])
  }

  lemma ServedExactly(b: State, now: real, want: int)
    requires Limited(b) && want > 0 && b.last <= now
    ensures var b' := Served(b, now, want);
            Taken(b, now, want) as real + b'.tokens + Spill(b, now) == b.tokens + Accrual(b.rate, b.last, now)
  {
    AccrualSplits(b.rate, b.last, b.last, b.last);
  }

  /** To the token: what was there and what accrued is granted, left, or spilled over a full bucket. */
  lemma {:induction false} ConservedExactly(b: State, asks: seq<Ask>)
    requires Limited(b) && Timely(b.last, asks)
    ensures GrantedIn(b, asks) as real + Run(b, asks).tokens + Spilled(b, asks)
         == b.tokens + Accrual(b.rate, b.last, EndOf(b.last, asks))
    decreases |asks|
  {
    if asks != [] {
      var a := asks[0];
      ServedWithin(b, a.now, a.want);
      ServedExactly(b, a.now, a.want);
      ConservedExactly(Served(b, a.now, a.want), asks[1..]);
      AccrualSplits(b.rate, b.last, a.now, EndOf(a.now, asks[1..]));
      assert EndOf(a.now, asks[1..]) == EndOf(b.last, asks);
    } else {
      AccrualSplits(b.rate, b.last, b.last, b.last);
    }
  }

  /**
   In any window of a run, from one installment to a later one, the tokens granted are at most
   the larger of burst and balance at the start plus what accrues inside the window.
   */
  lemma WindowBound(b: State, first: Ask, rest: seq<Ask>)
    requires Limited(b) && Timely(b.last, [first] + rest)
    ensures GrantedIn(b, [first] + rest) as real
         <= RMax(b.tokens, b.burst as real) + Accrual(b.rate, first.now, EndOf(first.now, rest))
  {
    var asks := [first] + rest;
    assert asks[1..] == rest;
    ServedWithin(b, first.now, first.want);
    Conserved(Served(b, first.now, first.want), rest);
  }

  /** From a balance within the burst, the bound burst + rate * (t - s) holds in every window of every run. */
  lemma BurstBound(b: State, before: seq<Ask>, first: Ask, rest: seq<Ask>)
    requires Limited(b) && b.tokens <= b.burst as real && Timely(b.last, before)
          && Timely(EndOf(b.last, before), [first] + rest)
    ensures GrantedIn(Run(b, before), [first] + rest) as real
         <= b.burst as real + Accrual(b.rate, first.now, EndOf(first.now, rest))
  {
    TokensWithin(b, before);
    WindowBound(Run(b, before), first, rest);
  }

  /** A bucket created with more than its burst grants more than its burst in no time. */
  lemma OverfilledExceeds(perSec: int, burst: int, start: int, now: real)
    requires perSec > 0 && start > Max(burst, 1)
    ensures var b := NewBucket(perSec, burst, start, now);
            var asks := [Ask(now, b.burst), Ask(now, 1)];
            b.burst == Max(burst, 1) && Timely(b.last, asks) && GrantedIn(b, asks) == b.burst + 1
  {
    var b := NewBucket(perSec, burst, start, now);
    var asks := [Ask(now, b.burst), Ask(now, 1)];
    assert asks[1..] == [Ask(now, 1)] && asks[1..][1..] == [];
    var b1 := Served(b, now, b.burst);
    assert Taken(b, now, b.burst) == b.burst && b1.tokens == start as real - b.burst as real;
    assert Taken(b1, now, 1) == 1;
    assert GrantedIn(b1, asks[1..]) == 1 + GrantedIn(Served(b1, now, 1), asks[1..][1..]) == 1;
  }

  /** The burst bound holds in every window of every run of the bucket. */
  ghost predicate BoundHolds(b: State) {
    forall before, first: Ask, rest | Timely(b.last, before) && Timely(EndOf(b.last, before), [first] + rest) ::
      GrantedIn(Run(b, before), [first] + rest) as real
        <= b.burst as real + Accrual(b.rate, first.now, EndOf(first.now, rest))
  }

  /** That is so exactly for buckets created with at most their burst. */
  lemma BoundIffStart(perSec: int, burst: int, start: int, now: real)
    requires perSec > 0
    ensures BoundHolds(NewBucket(perSec, burst, start, now)) <==> start <= Max(burst, 1)
  {
    var b := NewBucket(perSec, burst, start, now);
    if start <= Max(burst, 1) {
      forall before, first: Ask, rest | Timely(b.last, before) && Timely(EndOf(b.last, before), [first] + rest)
        ensures GrantedIn(Run(b, before), [first] + rest) as real
             <= b.burst as real + Accrual(b.rate, first.now, EndOf(first.now, rest))
      {
        BurstBound(b, before, first, rest);
      }
    } else {
      OverfilledExceeds(perSec, burst, start, now);
      var first, rest := Ask(now, b.burst), [Ask(now, 1)];
      assert [first] + rest == [Ask(now, b.burst), Ask(now, 1)];
      assert Run(b, []) == b && EndOf(b.last, []) == b.last;
      assert EndOf(first.now, rest) - first.now == 0.0;
      assert Timely(b.last, []) && GrantedIn(Run(b, []), [first] + rest) as real > b.burst as real;
    }
  }

  // ---------------------------------------------------------------- the bucket in place

  /** What other goroutines do to the bucket while a caller is between two turns. */
  datatype Peer = PeerAsk(ask: Ask) | PeerSetRate(now: real, perSec: int, burst: int)

  /** One pass of the wait loop: the caller is cancelled, or tries at `now` and then yields to peers. */
  datatype Turn = Cancelled | Try(now: real, peers: seq<Peer>)

  /** Everything that happens to a bucket during one Wait, in order. */
  datatype Op = Mine(ask: Ask) | Theirs(ask: Ask) | Config(now: real, perSec: int, burst: int)

  function Did(b: State, op: Op): State {
    match op
    case Mine(a) => Served(b, a.now, a.want)
    case Theirs(a) => Served(b, a.now, a.want)
    case Config(now, perSec, burst) => Reconfigured(b, now, perSec, burst)
  }

  function Played(b: State, ops: seq<Op>): State
    decreases |ops|
  {
    if ops == [] then b else Played(Did(b, ops[0]), ops[1..])
  }

  /** The tokens my own installments took out of the bucket. */
  function MyTake(b: State, ops: seq<Op>): int
    decreases |ops|
  {
    if ops == [] then 0
    else (if ops[0].Mine? then Taken(b, ops[0].ask.now, ops[0].ask.want) else 0) + MyTake(Did(b, ops[0]), ops[1..])
  }

  lemma {:induction false} PlayedOn(b: State, ops: seq<Op>, op: Op)
    ensures Played(b, ops + [op]) == Did(Played(b, ops), op)
    ensures MyTake(b, ops + [op])
         == MyTake(b, ops) + (if op.Mine? then Taken(Played(b, ops), op.ask.now, op.ask.want) else 0)
    decreases |ops|
  {
    if ops == [] {
      assert [op][1..] == [] && ops + [op] == [op];
    } else {
      assert (ops + [op])[1..] == ops[1..] + [op];
      PlayedOn(Did(b, ops[0]), ops[1..], op);
    }
  }

  /** How often I asked. */
  function Mines(ops: seq<Op>): nat {
    if ops == [] then 0 else Mines(ops[..|ops| - 1]) + if ops[|ops| - 1].Mine? then 1 else 0
  }

  /** Each of my installments asks for all that is still missing. */
  predicate AsksForRest(b: State, ops: seq<Op>, n: int) {
    forall k | 0 <= k < |ops| && ops[k].Mine? :: ops[k].ask.want == n - MyTake(b, ops[..k])
  }

  lemma AskedOn(b: State, ops: seq<Op>, a: Ask, n: int)
    requires AsksForRest(b, ops, n) && a.want == n - MyTake(b, ops)
    ensures AsksForRest(b, ops + [Mine(a)], n) && Mines(ops + [Mine(a)]) == Mines(ops) + 1
  {
    var ops' := ops + [Mine(a)];
    assert ops'[..|ops|] == ops;
    assert forall k | 0 <= k < |ops| :: ops'[..k] == ops[..k];
  }

  lemma {:induction false} PeersAskNothing(b: State, ops: seq<Op>, ops': seq<Op>, n: int)
    requires ops <= ops' && (forall k | |ops| <= k < |ops'| :: !ops'[k].Mine?) && AsksForRest(b, ops, n)
    ensures AsksForRest(b, ops', n) && Mines(ops') == Mines(ops)
    decreases |ops'|
  {
    if |ops| == |ops'| {
      assert ops == ops';
    } else {
      var front := ops'[..|ops'| - 1];
      PeersAskNothing(b, ops, front, n);
      assert forall k | 0 <= k < |front| :: ops'[..k] == front[..k];
    }
  }

  class Bucket {
    var rate: int
    var burst: int
    var tokens: real
    var last: real

    ghost function Now(): State
      reads this
    {
      State(rate, burst, tokens, last)
    }

    ghost predicate Valid()
      reads this
    {
      Configured(Now())
    }

    constructor (perSec: int, burst: int, start: int, now: real)
      ensures Valid() && Now() == NewBucket(perSec, burst, start, now)
    {
      rate := Max(perSec, 0);
      this.burst := if perSec > 0 then Max(burst, 1) else burst;
      tokens := Max(start, 0) as real;
      last := now;
    }

    method Refill(now: real)
      requires Valid()
      modifies this`tokens, this`last
      ensures Valid() && Now() == Refilled(old(Now()), now)
    {
      if rate <= 0 {
        last := now;
        return;
      }
      if now <= last {
        return;
      }
      Accrues(rate, last, now);
      tokens := tokens + Accrual(rate, last, now);
      last := now;
      if tokens > burst as real { tokens := burst as real; }
    }

    /** One installment under the lock: all it asks up to the burst, or nothing. */
    method Installment(now: real, want: int) returns (took: int, sleep: real)
      requires Valid() && rate > 0 && want > 0
      modifies this`tokens, this`last
      ensures Valid() && Now() == Served(old(Now()), now, want) && took == Taken(old(Now()), now, want)
      ensures 0 <= took <= want
      ensures took == 0 ==> sleep == Delay(Now(), want) && 0.0 < sleep
    {
      Refill(now);
      var take := Min(want, burst);
      if tokens >= take as real {
        tokens := tokens - take as real;
        return take, 0.0;
      }
      var deficit := take as real - tokens;
      Scaled(deficit, rate as real, 0.0);
      return 0, deficit / rate as real;
    }

    method SetRate(now: real, perSec: int, newBurst: int)
      requires Valid()
      modifies this
      ensures Valid() && Now() == Reconfigured(old(Now()), now, perSec, newBurst)
      ensures rate > 0 ==> 0.0 <= tokens <= burst as real
    {
      var r := Max(perSec, 0);
      var cap := if r > 0 then Max(newBurst, 1) else newBurst;
      Refill(now);
      rate, burst := r, cap;
      if r > 0 {
        if tokens > cap as real { tokens := cap as real; }
        if tokens < 0.0 { tokens := 0.0; }
      }
    }

    method RunPeers(peers: seq<Peer>, ghost b0: State, ghost ops0: seq<Op>) returns (ghost ops: seq<Op>)
      requires Valid() && Now() == Played(b0, ops0)
      modifies this
      ensures Valid() && Now() == Played(b0, ops) && MyTake(b0, ops) == MyTake(b0, ops0)
      ensures ops0 <= ops && forall k | |ops0| <= k < |ops| :: !ops[k].Mine?
    {
      ops := ops0;
      var i := 0;
      while i < |peers|
        invariant 0 <= i <= |peers| && Valid() && Now() == Played(b0, ops) && MyTake(b0, ops) == MyTake(b0, ops0)
        invariant ops0 <= ops && forall k | |ops0| <= k < |ops| :: !ops[k].Mine?
      {
        match peers[i] {
          case PeerAsk(a) =>
            if rate > 0 && a.want > 0 {
              PlayedOn(b0, ops, Theirs(a));
              var _, _ := Installment(a.now, a.want);
              ops := ops + [Theirs(a)];
            }
          case PeerSetRate(now, perSec, b) =>
            PlayedOn(b0, ops, Config(now, perSec, b));
            SetRate(now, perSec, b);
            ops := ops + [Config(now, perSec, b)];
        }
        i := i + 1;
      }
    }

    /**
     Wait for n tokens. Whatever peers do in between, a successful Wait is granted exactly n and
     an unsuccessful one fewer; every token granted was taken out of the bucket, except those
     passed through freely because the bucket has become unlimited.
     */
    method Wait(n: int, turns: seq<Turn>) returns (ok: bool, granted: int, ghost ops: seq<Op>)
      requires Valid()
      modifies this
      ensures Valid() && Now() == Played(old(Now()), ops)
      ensures 0 <= granted <= Max(n, 0) && (ok <==> granted == Max(n, 0))
      ensures MyTake(old(Now()), ops) <= granted
      ensures granted == MyTake(old(Now()), ops) || (ok && rate == 0)
      ensures AsksForRest(old(Now()), ops, n)
      ensures !ok ==> Mines(ops) == |turns| || exists i | 0 <= i < |turns| :: turns[i].Cancelled?
    {
      granted, ops := 0, [];
      if n <= 0 {
        return true, 0, ops;
      }
      ghost var b0 := Now();
      var i := 0;
      while i < |turns|
        invariant 0 <= i <= |turns| && Valid() && 0 <= granted < n
        invariant Now() == Played(b0, ops) && MyTake(b0, ops) == granted
        invariant AsksForRest(b0, ops, n) && Mines(ops) == i
      {
        match turns[i] {
          case Cancelled =>
            return false, granted, ops;
          case Try(now, peers) =>
            if rate == 0 {
              return true, n, ops;
            }
            PlayedOn(b0, ops, Mine(Ask(now, n - granted)));
            AskedOn(b0, ops, Ask(now, n - granted), n);
            ops := ops + [Mine(Ask(now, n - granted))];
            var took, _ := Installment(now, n - granted);
            granted := granted + took;
            if granted == n {
              return true, granted, ops;
            }
            ghost var mine := ops;
            ops := RunPeers(peers, b0, ops);
            PeersAskNothing(b0, mine, ops, n);
        }
        i := i + 1;
      }
      ok := false;
    }
  }
}
