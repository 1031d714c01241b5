// The token bucket (internal/pkg/limiter/token_limiter.go): its configuration, the
// bucket as a bounded channel, and the growth of its capacity.

module Limiter {
  import opened Common

  datatype Config = Config(initCapacity: int, maxCapacity: int, increaseStep: int, increaseInterval: int)

  datatype Result<T> = Ok(value: T) | Err(message: string)

  const DEFAULT: Config := Config(2000, 50000, 500, 2_000_000_000)

  // NewConfig; the first failing check decides the message.
  function NewConfig(initCapacity: int, maxCapacity: int, increaseStep: int, increaseInterval: int): Result<Config>
  {
    if initCapacity <= 0 then Err("init capacity must be greater than 0")
    else if maxCapacity <= 0 then Err("max capacity must be greater than 0")
    else if initCapacity > maxCapacity then Err("init capacity must be less than max capacity")
    else if increaseStep <= 0 then Err("increase step must be greater than 0")
    else if increaseInterval <= 0 then Err("increase interval must be greater than 0")
    else Ok(Config(initCapacity, maxCapacity, increaseStep, increaseInterval))
  }

  predicate ValidConfig(c: Config)
  {
    0 < c.initCapacity <= c.maxCapacity && 0 < c.increaseStep && 0 < c.increaseInterval
  }

  // The fields are 64-bit integers.
  predicate Fits(c: Config)
  {
    c.maxCapacity <= MAX_INT64 && c.increaseStep <= MAX_INT64
  }

  lemma NewConfigAccepts(i: int, m: int, s: int, d: int)
    ensures NewConfig(i, m, s, d).Ok? <==> ValidConfig(Config(i, m, s, d))
    ensures NewConfig(i, m, s, d).Ok? ==> NewConfig(i, m, s, d).value == Config(i, m, s, d)
  {
  }

  // ---------- the growth schedule ----------

  // The capacity that one tick sets, computed in 64 bits; growth stops at the maximum.
  function Tick(c: Config, capacity: int): int
  {
    if capacity >= c.maxCapacity then capacity
    else Min(Wrap64(capacity + c.increaseStep), c.maxCapacity)
  }

  function Min(x: int, y: int): int
  {
    if x <= y then x else y
  }

  function CapacityAfter(c: Config, ticks: nat): int
  {
    if ticks == 0 then c.initCapacity else Tick(c, CapacityAfter(c, ticks - 1))
  }

  // The tokens one tick sends. Both the sum and the difference wrap around in 64 bits,
  // and a negative number of tokens is none.
  function TokensOf(c: Config, capacity: int): int
  {
    Wrap64(Tick(c, capacity) - capacity)
  }

  function SentAfter(c: Config, ticks: nat): int
  {
    if ticks == 0 then 0
    else
      var n := TokensOf(c, CapacityAfter(c, ticks - 1));
      SentAfter(c, ticks - 1) + (if n > 0 then n else 0)
  }

  // The schedule the comment of DefaultConfig calculates with.
  function Schedule(c: Config, ticks: nat): int
  {
    Min(c.initCapacity + ticks * c.increaseStep, c.maxCapacity)
  }

  // The number of ticks to the maximum, rounded up.
  function TicksToMax(c: Config): nat
    requires ValidConfig(c)
  {
    (c.maxCapacity - c.initCapacity + c.increaseStep - 1) / c.increaseStep
  }

  // The largest sum the growth loop computes still fits into 64 bits.
  predicate SumsFit(c: Config)
    requires ValidConfig(c)
  {
    c.initCapacity + TicksToMax(c) * c.increaseStep <= MAX_INT64
  }

  // Products, one step at a time.
  lemma OneMore(k: int, s: int)
    ensures (k + 1) * s == k * s + s
  {
  }

  lemma Monotone(k: int, n: int, s: int)
    requires k <= n && s >= 0
    ensures k * s <= n * s
  {
  }

  lemma RoundedUp(d: int, s: int)
    requires d >= 0 && s > 0
    ensures var n := (d + s - 1) / s; n * s >= d && (n > 0 ==> (n - 1) * s < d)
  {
    var n := (d + s - 1) / s;
    assert d + s - 1 == n * s + (d + s - 1) % s;
    OneMore(n - 1, s);
  }

  lemma TicksBound(c: Config)
    requires ValidConfig(c)
    ensures c.initCapacity + TicksToMax(c) * c.increaseStep >= c.maxCapacity
    ensures TicksToMax(c) > 0 ==> c.initCapacity + (TicksToMax(c) - 1) * c.increaseStep < c.maxCapacity
  {
    RoundedUp(c.maxCapacity - c.initCapacity, c.increaseStep);
  }

  // The sum of tick k + 1, and which ticks there are.
  lemma SumOfTick(c: Config, k: nat)
    requires ValidConfig(c)
    ensures c.initCapacity + (k + 1) * c.increaseStep == c.initCapacity + k * c.increaseStep + c.increaseStep
    ensures c.initCapacity + k * c.increaseStep < c.maxCapacity <==> k < TicksToMax(c)
    ensures k < TicksToMax(c) && SumsFit(c) ==> c.initCapacity + (k + 1) * c.increaseStep <= MAX_INT64
  {
    OneMore(k, c.increaseStep);
    TicksBound(c);
    if k < TicksToMax(c) {
      Monotone(k, TicksToMax(c) - 1, c.increaseStep);
      Monotone(k + 1, TicksToMax(c), c.increaseStep);
    } else {
      Monotone(TicksToMax(c), k, c.increaseStep);
    }
  }

  lemma {:induction false} ScheduleHolds(c: Config, k: nat)
    requires ValidConfig(c) && Fits(c) && SumsFit(c)
    ensures CapacityAfter(c, k) == Schedule(c, k)
  {
    if k > 0 {
      ScheduleHolds(c, k - 1);
      SumOfTick(c, k - 1);
      Monotone(0, k - 1, c.increaseStep);
    }
  }

  // Without room for the last sum the capacity wraps around to a negative number.
  lemma ScheduleBreaks(c: Config)
    requires ValidConfig(c) && Fits(c) && !SumsFit(c)
    ensures TicksToMax(c) > 0 && CapacityAfter(c, TicksToMax(c)) < 0
  {
    TicksBound(c);
    var n := TicksToMax(c);
    if n == 0 {
      Monotone(0, n, c.increaseStep);
    }
    BeforeTheLastTick(c, n - 1);
    SumOfTick(c, n - 1);
  }

  // One configuration that NewConfig accepts and that wraps around at its first tick.
  lemma AcceptedStepWraps()
    ensures var c := Config(1, MAX_INT64, MAX_INT64, 1);
            && NewConfig(1, MAX_INT64, MAX_INT64, 1) == Ok(c) && Fits(c) && !SumsFit(c)
            && TicksToMax(c) == 1 && CapacityAfter(c, 1) == -MAX_INT64 - 1
  {
    var c := Config(1, MAX_INT64, MAX_INT64, 1);
    assert CapacityAfter(c, 1) == Tick(c, CapacityAfter(c, 0));
  }

  lemma {:induction false} BeforeTheLastTick(c: Config, k: nat)
    requires ValidConfig(c) && Fits(c) && k < TicksToMax(c)
    ensures CapacityAfter(c, k) == c.initCapacity + k * c.increaseStep < c.maxCapacity
  {
    SumOfTick(c, k);
    if k > 0 {
      BeforeTheLastTick(c, k - 1);
      SumOfTick(c, k - 1);
    }
  }

  // The growth loop follows the schedule exactly for the configurations whose last sum
  // fits; NewConfig does not check this.
  lemma GrowthFollowsScheduleIff(c: Config)
    requires ValidConfig(c) && Fits(c)
    ensures (forall k: nat :: CapacityAfter(c, k) == Schedule(c, k)) <==> SumsFit(c)
  {
    if SumsFit(c) {
      forall k: nat
        ensures CapacityAfter(c, k) == Schedule(c, k)
      {
        ScheduleHolds(c, k);
      }
    } else {
      ScheduleBreaks(c);
      ScheduleStarts(c, TicksToMax(c));
    }
  }

  lemma ScheduleStarts(c: Config, k: nat)
    requires ValidConfig(c)
    ensures c.initCapacity <= Schedule(c, k) <= c.maxCapacity
  {
    Monotone(0, k, c.increaseStep);
  }

  // The maximum is reached after exactly that many ticks, and never left.
  lemma MaximumReached(c: Config, k: nat)
    requires ValidConfig(c) && Fits(c) && SumsFit(c)
    ensures CapacityAfter(c, k) == c.maxCapacity <==> k >= TicksToMax(c)
    ensures CapacityAfter(c, k) <= CapacityAfter(c, k + 1)
  {
    ScheduleHolds(c, k);
    ScheduleHolds(c, k + 1);
    SumOfTick(c, k);
  }

  lemma DefaultTakes96Ticks()
    ensures ValidConfig(DEFAULT) && TicksToMax(DEFAULT) == 96 && SumsFit(DEFAULT)
  {
  }

  // ---------- the bucket ----------

  // The channel of tokens has room for initCapacity of them, however far the capacity grows.
  class TokenLimiter {
    const cfg: Config
    var tokens: int        // in the channel
    var currCapacity: int

    ghost predicate Valid()
      reads this
    {
      ValidConfig(cfg) && 0 <= tokens <= cfg.initCapacity
    }

    constructor (cfg: Config)
      requires ValidConfig(cfg)
      ensures Valid() && this.cfg == cfg && tokens == currCapacity == cfg.initCapacity
    {
      this.cfg := cfg;
      tokens, currCapacity := 0, 0;
      new;
      for i := 0 to cfg.initCapacity
        invariant tokens == i && this.cfg == cfg
      {
        tokens := tokens + 1;
      }
      currCapacity := cfg.initCapacity;
    }

    method Acquire() returns (ok: bool)
      requires Valid()
      modifies this`tokens
      ensures Valid()
      ensures ok == (old(tokens) > 0) && tokens == (if ok then old(tokens) - 1 else old(tokens))
    {
      ok := tokens > 0;
      if ok {
        tokens := tokens - 1;
      }
    }

    method Release() returns (ok: bool)
      requires Valid()
      modifies this`tokens
      ensures Valid()
      ensures ok == (old(tokens) < cfg.initCapacity) && tokens == (if ok then old(tokens) + 1 else old(tokens))
    {
      ok := tokens < cfg.initCapacity;
      if ok {
        tokens := tokens + 1;
      }
    }

    // What other goroutines do until the channel has room again.
    method AwaitRoom()
      requires Valid()
      modifies this`tokens
      ensures Valid() && tokens < cfg.initCapacity
    {
      var left :| 0 <= left < cfg.initCapacity;
      tokens := left;
    }

    // The growth loop of Start, for the given number of ticks: every tick sends its
    // tokens one at a time, and then publishes the new capacity. It returns the number of
    // ticks that had an effect and the tokens it has sent.
    method Grow(ticks: nat) returns (taken: nat, ghost sent: int)
      requires Valid() && Fits(cfg) && currCapacity == cfg.initCapacity
      modifies this`tokens, this`currCapacity
      ensures Valid() && taken <= ticks
      ensures currCapacity == CapacityAfter(cfg, ticks) && sent == SentAfter(cfg, ticks)
      ensures taken < ticks ==> currCapacity >= cfg.maxCapacity
      ensures SumsFit(cfg) ==> && taken == Min(ticks, TicksToMax(cfg)) && currCapacity == Schedule(cfg, ticks)
                               && sent == currCapacity - cfg.initCapacity
    {
      taken, sent := 0, 0;
      while taken < ticks
        invariant Valid() && taken <= ticks
        invariant currCapacity == CapacityAfter(cfg, taken) && sent == SentAfter(cfg, taken)
        invariant forall k: nat :: k < taken ==> CapacityAfter(cfg, k) < cfg.maxCapacity
        decreases ticks - taken
      {
        var curr := currCapacity;
        if curr >= cfg.maxCapacity {
          StoppedStays(cfg, taken, ticks);
          break;
        }
        var newCap := Tick(cfg, curr);
        var count := TokensOf(cfg, curr);
        for i := 0 to if count > 0 then count else 0
          invariant Valid() && currCapacity == curr && sent == SentAfter(cfg, taken) + i
        {
          AwaitRoom();
          tokens := tokens + 1;
          sent := sent + 1;
        }
        currCapacity := newCap;
        taken := taken + 1;
      }
      if SumsFit(cfg) {
        TakenIsScheduled(cfg, taken, ticks);
      }
    }
  }

  // A loop that has stopped is done for good.
  lemma {:induction false} StoppedStays(c: Config, k: nat, n: nat)
    requires CapacityAfter(c, k) >= c.maxCapacity && k <= n
    ensures CapacityAfter(c, n) == CapacityAfter(c, k) && SentAfter(c, n) == SentAfter(c, k)
  {
    if k < n {
      StoppedStays(c, k, n - 1);
    }
  }

  lemma TakenIsScheduled(c: Config, taken: nat, ticks: nat)
    requires ValidConfig(c) && Fits(c) && SumsFit(c) && taken <= ticks
    requires forall k: nat :: k < taken ==> CapacityAfter(c, k) < c.maxCapacity
    requires taken < ticks ==> CapacityAfter(c, ticks) >= c.maxCapacity && CapacityAfter(c, taken) >= c.maxCapacity
    ensures taken == Min(ticks, TicksToMax(c))
    ensures CapacityAfter(c, ticks) == Schedule(c, ticks)
    ensures SentAfter(c, ticks) == CapacityAfter(c, ticks) - c.initCapacity
  {
    ScheduleHolds(c, ticks);
    ScheduleHolds(c, taken);
    MaximumReached(c, taken);
    if taken > 0 {
      MaximumReached(c, taken - 1);
      assert CapacityAfter(c, taken - 1) < c.maxCapacity;
    }
    SentIsTheDifference(c, ticks);
  }

  lemma TickSendsTheDifference(c: Config, k: nat)
    requires ValidConfig(c) && Fits(c) && SumsFit(c)
    ensures TokensOf(c, CapacityAfter(c, k)) == CapacityAfter(c, k + 1) - CapacityAfter(c, k) >= 0
  {
    MaximumReached(c, k);
    ScheduleHolds(c, k);
    ScheduleHolds(c, k + 1);
    ScheduleStarts(c, k);
    ScheduleStarts(c, k + 1);
    hide Schedule, SumsFit;
  }

  lemma {:induction false} SentIsTheDifference(c: Config, k: nat)
    requires ValidConfig(c) && Fits(c) && SumsFit(c)
    ensures SentAfter(c, k) == CapacityAfter(c, k) - c.initCapacity
  {
    if k > 0 {
      SentIsTheDifference(c, k - 1);
      TickSendsTheDifference(c, k - 1);
    }
  }
}
