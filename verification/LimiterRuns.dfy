// The token bucket shared by any number of goroutines (internal/pkg/limiter/token_limiter.go):
// callers that acquire and later release one token each, and the one goroutine of Start
// that grows the capacity. Every channel or atomic operation is one step.

module LimiterRuns {
  import opened Common
  import opened Limiter

  // The goroutine of Start. count is how many tokens the tick sends.
  datatype Grower =
    | Waiting
    | Sending(newCap: int, count: int, injected: nat)
    | Stopped

  // held counts the tokens of callers that have not released them; dropped counts the
  // releases that found the bucket full.
  datatype Bucket = Bucket(avail: nat, held: nat, curr: int, grower: Grower, dropped: nat)

  datatype Event = Acquire | Release | Tick | Inject | Publish | Cancel

  function New(c: Config): Bucket
    requires ValidConfig(c)
  {
    Bucket(c.initCapacity, 0, c.initCapacity, Waiting, 0)
  }

  function Next(c: Config, b: Bucket, e: Event): Option<Bucket>
  {
    match e
    case Acquire =>
      if b.avail > 0 then Some(b.(avail := b.avail - 1, held := b.held + 1)) else Some(b)
    case Release =>
      // only a caller that holds a token releases one
      if b.held == 0 then None
      else if b.avail < c.initCapacity then Some(b.(avail := b.avail + 1, held := b.held - 1))
      else Some(b.(held := b.held - 1, dropped := b.dropped + 1))
    case Tick =>
      if !b.grower.Waiting? then None
      else if b.curr >= c.maxCapacity then Some(b.(grower := Stopped))
      else Some(b.(grower := Sending(Limiter.Tick(c, b.curr), TokensOf(c, b.curr), 0)))
    case Inject =>
      // l.tokens <- struct{}{} blocks while the channel is full
      if b.grower.Sending? && b.grower.injected < b.grower.count && b.avail < c.initCapacity then
        Some(b.(avail := b.avail + 1, grower := b.grower.(injected := b.grower.injected + 1)))
      else None
    case Publish =>
      if b.grower.Sending? && b.grower.injected >= b.grower.count then
        Some(b.(curr := b.grower.newCap, grower := Waiting))
      else None
    case Cancel =>
      if b.grower.Waiting? then Some(b.(grower := Stopped)) else None
  }

  function Run(c: Config, events: seq<Event>): Option<Bucket>
    requires ValidConfig(c)
  {
    if events == [] then Some(New(c))
    else
      match Run(c, events[..|events| - 1])
      case None => None
      case Some(b) => Next(c, b, events[|events| - 1])
  }

  lemma RunAppend(c: Config, events: seq<Event>, e: Event)
    requires ValidConfig(c) && Run(c, events).Some?
    ensures Run(c, events + [e]) == Next(c, Run(c, events).value, e)
  {
    assert (events + [e])[..|events|] == events;
  }

  // The tokens the current tick has sent so far.
  function Injected(b: Bucket): nat
  {
    if b.grower.Sending? then b.grower.injected else 0
  }

  ghost predicate Bounded(c: Config, b: Bucket)
  {
    && b.avail <= c.initCapacity <= b.avail + b.held <= b.curr + Injected(b) <= c.maxCapacity
    && b.avail + b.held + b.dropped == b.curr + Injected(b)
  }

  // ---------- when the last sum fits ----------

  // The capacity is always one of the schedule.
  ghost predicate OnSchedule(c: Config, b: Bucket, k: nat)
  {
    && b.curr == CapacityAfter(c, k)
    && (b.grower.Sending? ==>
          && b.curr < c.maxCapacity
          && b.grower.newCap == CapacityAfter(c, k + 1)
          && b.grower.count == b.grower.newCap - b.curr
          && b.grower.injected <= b.grower.count)
  }

  lemma KeepSchedule(c: Config, b: Bucket, k: nat, e: Event) returns (k': nat)
    requires ValidConfig(c) && Fits(c) && SumsFit(c)
    requires OnSchedule(c, b, k) && Next(c, b, e).Some?
    ensures OnSchedule(c, Next(c, b, e).value, k')
  {
    k' := if e.Publish? then k + 1 else k;
    ScheduleHolds(c, k);
    ScheduleHolds(c, k + 1);
    MaximumReached(c, k);
    ScheduleStarts(c, k);
  }

  lemma KeepBounded(c: Config, b: Bucket, k: nat, e: Event)
    requires ValidConfig(c) && Fits(c) && SumsFit(c)
    requires OnSchedule(c, b, k) && Bounded(c, b) && Next(c, b, e).Some?
    ensures Bounded(c, Next(c, b, e).value)
  {
    ScheduleHolds(c, k);
    ScheduleHolds(c, k + 1);
    ScheduleStarts(c, k + 1);
  }

  lemma {:induction false} RunKeeps(c: Config, events: seq<Event>) returns (k: nat)
    requires ValidConfig(c) && Fits(c) && SumsFit(c) && Run(c, events).Some?
    ensures Bounded(c, Run(c, events).value) && OnSchedule(c, Run(c, events).value, k)
  {
    if events == [] {
      k := 0;
    } else {
      var before := events[..|events| - 1];
      var k0 := RunKeeps(c, before);
      var b, e := Run(c, before).value, events[|events| - 1];
      KeepBounded(c, b, k0, e);
      k := KeepSchedule(c, b, k0, e);
    }
  }

  // ---------- when it does not ----------

  // Callers that acquire keep the grower going.
  lemma {:induction false} InjectMany(c: Config, events: seq<Event>, n: nat) returns (more: seq<Event>)
    requires ValidConfig(c) && Run(c, events).Some?
    requires var b := Run(c, events).value;
             b.avail == c.initCapacity && b.grower.Sending? && b.grower.injected + n <= b.grower.count
    ensures var b := Run(c, events).value;
            Run(c, more) == Some(b.(held := b.held + n, grower := b.grower.(injected := b.grower.injected + n)))
  {
    hide Run;
    if n == 0 {
      more := events;
    } else {
      var most := InjectMany(c, events, n - 1);
      RunAppend(c, most, Acquire);
      RunAppend(c, most + [Acquire], Inject);
      more := most + [Acquire] + [Inject];
    }
  }

  // One whole tick, with a caller acquiring after each token.
  lemma WholeTick(c: Config, events: seq<Event>) returns (more: seq<Event>)
    requires ValidConfig(c) && Run(c, events).Some?
    requires var b := Run(c, events).value;
             b.avail == c.initCapacity && b.grower.Waiting? && b.curr < c.maxCapacity && TokensOf(c, b.curr) >= 0
    ensures var b := Run(c, events).value;
            Run(c, more) == Some(b.(held := b.held + TokensOf(c, b.curr), curr := Limiter.Tick(c, b.curr)))
  {
    var n := TokensOf(c, Run(c, events).value.curr);
    RunAppend(c, events, Tick);
    var sent := InjectMany(c, events + [Tick], n);
    RunAppend(c, sent, Publish);
    more := sent + [Publish];
  }

  // Before the last one a tick sends the whole step.
  lemma FullTick(c: Config, k: nat)
    requires ValidConfig(c) && Fits(c) && k + 1 < TicksToMax(c)
    ensures TokensOf(c, CapacityAfter(c, k)) == c.increaseStep
    ensures Limiter.Tick(c, CapacityAfter(c, k)) == CapacityAfter(c, k + 1)
  {
    BeforeTheLastTick(c, k);
    BeforeTheLastTick(c, k + 1);
    OneMore(k, c.increaseStep);
  }

  lemma {:induction false} GrowTo(c: Config, k: nat) returns (events: seq<Event>)
    requires ValidConfig(c) && Fits(c) && k < TicksToMax(c)
    ensures Run(c, events) == Some(Bucket(c.initCapacity, k * c.increaseStep, CapacityAfter(c, k), Waiting, 0))
  {
    if k == 0 {
      events := [];
    } else {
      hide *;
      var before := GrowTo(c, k - 1);
      BeforeTheLastTick(c, k - 1);
      OneMore(k - 1, c.increaseStep);
      FullTick(c, k - 1);
      events := WholeTick(c, before);
    }
  }

  // At the last tick the sum wraps around, and so does the difference, to the step again.
  lemma LastTickWraps(c: Config)
    requires ValidConfig(c) && Fits(c) && !SumsFit(c)
    ensures TicksToMax(c) > 0
    ensures var curr := CapacityAfter(c, TicksToMax(c) - 1);
            && c.initCapacity <= curr < c.maxCapacity && curr + c.increaseStep > MAX_INT64
            && TokensOf(c, curr) == c.increaseStep
  {
    ScheduleBreaks(c);
    var n := TicksToMax(c);
    BeforeTheLastTick(c, n - 1);
    OneMore(n - 1, c.increaseStep);
    Monotone(0, n - 1, c.increaseStep);
  }

  // So this tick sends more than the maximum allows.
  lemma OverTheMaximum(c: Config) returns (events: seq<Event>)
    requires ValidConfig(c) && Fits(c) && !SumsFit(c)
    ensures Run(c, events).Some?
    ensures var b := Run(c, events).value; b.avail + b.held > c.maxCapacity
  {
    LastTickWraps(c);
    var n := TicksToMax(c);
    BeforeTheLastTick(c, n - 1);
    hide SumsFit, TicksToMax, CapacityAfter, TokensOf, Run;
    var before := GrowTo(c, n - 1);
    RunAppend(c, before, Tick);
    events := InjectMany(c, before + [Tick], c.increaseStep);
  }

  // ---------- the main results ----------

  // Every interleaving keeps the bounds, and accounts for every token ever sent, for
  // exactly the configurations whose last sum fits.
  lemma TokensBoundedIff(c: Config)
    requires ValidConfig(c) && Fits(c)
    ensures (forall events :: Run(c, events).Some? ==> Bounded(c, Run(c, events).value)) <==> SumsFit(c)
  {
    if SumsFit(c) {
      forall events | Run(c, events).Some?
        ensures Bounded(c, Run(c, events).value)
      {
        var _ := RunKeeps(c, events);
      }
    } else {
      var events := OverTheMaximum(c);
      assert !Bounded(c, Run(c, events).value);
    }
  }

  // When everybody has released, the bucket is full again, whatever was dropped.
  lemma AllReleasedFillsTheBucket(c: Config, events: seq<Event>)
    requires ValidConfig(c) && Fits(c) && SumsFit(c) && Run(c, events).Some?
    requires Run(c, events).value.held == 0
    ensures Run(c, events).value.avail == c.initCapacity
  {
    var _ := RunKeeps(c, events);
  }

  // A release is refused exactly when the bucket is full; then growth has sent as many tokens
  // as are still held or have been refused.
  lemma ReleaseDropsIff(c: Config, events: seq<Event>)
    requires ValidConfig(c) && Fits(c) && SumsFit(c) && Run(c, events).Some?
    requires Run(c, events).value.held > 0
    ensures var b := Run(c, events).value;
            && (Next(c, b, Release).value.dropped > b.dropped <==> b.avail == c.initCapacity)
            && (b.avail == c.initCapacity <==> b.held + b.dropped == b.curr + Injected(b) - c.initCapacity)
  {
    var _ := RunKeeps(c, events);
  }

  // Growth replaces a token that is held, and its release is refused.
  lemma RefusedRelease(c: Config)
    requires ValidConfig(c) && Fits(c) && c.initCapacity < c.maxCapacity
    ensures var events := [] + [Acquire] + [Tick] + [Inject] + [Release];
            Run(c, events).Some? && Run(c, events).value.dropped == 1
  {
    FirstTickSends(c);
    hide TokensOf;
    RunAppend(c, [], Acquire);
    RunAppend(c, [] + [Acquire], Tick);
    RunAppend(c, [] + [Acquire] + [Tick], Inject);
    RunAppend(c, [] + [Acquire] + [Tick] + [Inject], Release);
  }

  lemma FirstTickSends(c: Config)
    requires ValidConfig(c) && Fits(c) && c.initCapacity < c.maxCapacity
    ensures TokensOf(c, c.initCapacity) > 0
  {
    SumOfTick(c, 0);
    assert 0 * c.increaseStep == 0 && (0 + 1) * c.increaseStep == c.increaseStep;
    if TicksToMax(c) > 1 {
      FullTick(c, 0);
    } else if !SumsFit(c) {
      LastTickWraps(c);
    }
  }

  // So the branch that its comment calls unreachable is reached on some run exactly when
  // there is room to grow.
  lemma RefusalIsPossibleIff(c: Config)
    requires ValidConfig(c) && Fits(c)
    ensures (exists events :: Run(c, events).Some? && Run(c, events).value.dropped > 0)
       <==> c.initCapacity < c.maxCapacity
  {
    if c.initCapacity < c.maxCapacity {
      RefusedRelease(c);
    } else {
      assert TicksToMax(c) == 0;
      forall events | Run(c, events).Some?
        ensures Run(c, events).value.dropped == 0
      {
        var _ := RunKeeps(c, events);
      }
    }
  }

  // What stops the growth goroutine: its context is cancelled, or a tick finds the maximum.
  predicate Stops(c: Config, events: seq<Event>, n: int)
    requires ValidConfig(c)
  {
    && 0 <= n < |events|
    && (events[n] == Cancel
        || (events[n] == Tick && Run(c, events[..n]).Some? && Run(c, events[..n]).value.curr >= c.maxCapacity))
  }

  lemma StopStep(c: Config, b: Bucket, e: Event)
    requires Next(c, b, e).Some?
    ensures Next(c, b, e).value.grower.Stopped?
       <==> b.grower.Stopped? || e == Cancel || (e == Tick && b.curr >= c.maxCapacity)
  {
  }

  lemma StopsBefore(c: Config, events: seq<Event>, n: int)
    requires ValidConfig(c) && events != [] && n != |events| - 1
    ensures Stops(c, events, n) <==> Stops(c, events[..|events| - 1], n)
  {
    if 0 <= n < |events| - 1 {
      assert events[..|events| - 1][..n] == events[..n];
    }
  }

  // The goroutine has stopped exactly when one of the two has happened.
  lemma {:induction false} GrowthStopsIff(c: Config, events: seq<Event>)
    requires ValidConfig(c) && Run(c, events).Some?
    ensures Run(c, events).value.grower.Stopped? <==> exists n :: Stops(c, events, n)
  {
    if events != [] {
      var last := |events| - 1;
      GrowthStopsIff(c, events[..last]);
      StopStep(c, Run(c, events[..last]).value, events[last]);
      assert Stops(c, events, last)
        <==> events[last] == Cancel || (events[last] == Tick && Run(c, events[..last]).value.curr >= c.maxCapacity);
      forall n | n != last
        ensures Stops(c, events, n) <==> Stops(c, events[..last], n)
      {
        StopsBefore(c, events, n);
      }
      assert !Stops(c, events[..last], last);
      hide Stops, Next;
    }
  }

  // With callers that acquire, growth gets to the maximum.
  lemma MaximumIsReachable(c: Config) returns (events: seq<Event>)
    requires ValidConfig(c) && Fits(c) && SumsFit(c)
    ensures Run(c, events).Some? && Run(c, events).value.curr == c.maxCapacity
  {
    var n := TicksToMax(c);
    MaximumReached(c, n);
    if n == 0 {
      events := [];
    } else {
      MaximumReached(c, n - 1);
      ScheduleHolds(c, n - 1);
      ScheduleHolds(c, n);
      ScheduleStarts(c, n - 1);
      var before := GrowTo(c, n - 1);
      hide Run;
      events := WholeTick(c, before);
    }
  }

  // The grower needs a held token for every token it sends: an idle limiter does not grow.
  lemma IdleLimiterDoesNotGrow(c: Config, events: seq<Event>)
    requires ValidConfig(c) && Fits(c) && SumsFit(c) && Run(c, events).Some?
    ensures var b := Run(c, events).value;
            && (Next(c, b, Inject).Some? ==> b.held > 0)
            && (b.held == 0 && b.grower.Sending? ==> forall e :: Next(c, b, e).Some? && !e.Acquire? ==> e.Publish?)
  {
    var _ := RunKeeps(c, events);
  }

  // More tokens than the bucket has room for are out only after growth: callers together
  // never hold more than the published capacity and what the current tick has added.
  lemma HoldersFollowTheSchedule(c: Config, events: seq<Event>)
    requires ValidConfig(c) && Fits(c) && SumsFit(c) && Run(c, events).Some?
    ensures exists k: nat ::
              Schedule(c, k) == Run(c, events).value.curr && Run(c, events).value.held <= Schedule(c, k + 1)
  {
    var k := RunKeeps(c, events);
    ScheduleHolds(c, k);
    ScheduleHolds(c, k + 1);
    MaximumReached(c, k);
    assert Schedule(c, k) == Run(c, events).value.curr;
  }
}
