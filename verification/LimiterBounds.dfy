/**
 Quantitative theorems about runs of the atomic-tick limiter: exact conservation of credit and the
 whole-run rate bound, the closed form for a keen consumer, the square-root bound for an absent one,
 and the burst bound for a stalled one.
 */
module LimiterBounds {
  import opened Numbers
  import opened RateLimiter

  // ---------------------------------------------------------------------------------------------
  // Rate safety over whole runs

  /** The time until which the limit in force before `e` stays in force: SetLimit installs 0 at zeroAt. */
  ghost function Until(a: Account, e: Event): real {
    match e
    case Tick(now) => now
    case SetLimit(_, zeroAt, _) => zeroAt
    case Receive => a.clock
  }

  /** The integral of the piecewise-constant limit over the time the events take. */
  ghost function Allowance(a: Account, events: seq<Event>): real
    requires a.Valid() && Possible(a, events)
    decreases |events|
  {
    if events == [] then 0.0
    else Earned(a.clock, Until(a, events[0]), a.limit) + Allowance(Apply(a, events[0]), events[1..])
  }

  /** Credit earned but not yet turned into tokens. */
  ghost function Credit(a: Account): real {
    a.Tokens(a.clock)
  }

  /** Everything that credit ever became, plus what is still owed. */
  ghost function Booked(a: Account): real {
    a.pushed as real + a.forfeited as real + a.lost + Credit(a)
  }

  lemma TickConserves(a: Account, now: real)
    requires a.Valid() && a.clock <= now
    ensures Booked(Ticked(a, now)) == Booked(a) + Earned(a.clock, now, a.limit)
    ensures Ticked(a, now).forfeited >= a.forfeited
  {
    hide Earned;
    EarnedSplits(a.lastEvent, a.clock, now, a.limit);
    EarnedNothing(now, a.limit);
  }

  lemma SetLimitConserves(a: Account, n: real, zeroAt: real, at: real)
    requires a.Valid() && a.clock <= zeroAt <= at
    ensures Booked(Limited(a, n, zeroAt, at)) == Booked(a) + Earned(a.clock, zeroAt, a.limit)
    ensures Limited(a, n, zeroAt, at).lost >= a.lost
  {
    hide Earned;
    EarnedSplits(a.lastEvent, a.clock, zeroAt, a.limit);
    EarnedNonNeg(a.lastEvent, zeroAt, a.limit);
    EarnedNothing(at, Effective(n));
  }

  lemma StepConserves(a: Account, e: Event)
    requires a.Valid() && Enabled(a, e)
    ensures Booked(Apply(a, e)) == Booked(a) + Earned(a.clock, Until(a, e), a.limit)
    ensures Apply(a, e).forfeited >= a.forfeited
    ensures Apply(a, e).lost >= a.lost
  {
    hide Earned;
    match e {
      case Tick(now) => TickConserves(a, now);
      case SetLimit(n, zeroAt, at) => SetLimitConserves(a, n, zeroAt, at);
      case Receive => EarnedNothing(a.clock, a.limit);
    }
  }

  /** Every unit of allowance is a token, forfeited, lost to a SetLimit, or still owed: nothing else. */
  lemma {:induction false} CreditIsConserved(a: Account, events: seq<Event>)
    requires a.Valid() && Possible(a, events)
    ensures Booked(Run(a, events)) == Booked(a) + Allowance(a, events)
    ensures Run(a, events).forfeited >= a.forfeited
    ensures Run(a, events).lost >= a.lost
    decreases |events|
  {
    hide Booked, Ticked, Limited, Earned;
    if events != [] {
      StepConserves(a, events[0]);
      CreditIsConserved(Apply(a, events[0]), events[1..]);
    }
  }

  lemma CreditNonNeg(a: Account)
    requires a.Valid()
    ensures Credit(a) >= 0.0
  {
    hide Earned;
    EarnedNonNeg(a.lastEvent, a.clock, a.limit);
  }

  /**
   Whatever the sequence of SetLimit calls, ticks and receives, no more tokens are pushed than the credit
   standing at the start plus the integral of the limit.
   */
  lemma PushedWithinAllowance(a: Account, events: seq<Event>)
    requires a.Valid() && Possible(a, events)
    ensures (Run(a, events).pushed - a.pushed) as real <= Credit(a) + Allowance(a, events)
  {
    hide Credit, Allowance, Run, Possible, Earned;
    CreditIsConserved(a, events);
    CreditNonNeg(Run(a, events));
  }

  /** A limiter that has pushed nothing and owes nothing. */
  ghost predicate Unused(a: Account) {
    a.Valid() && a.pushed == 0 && Credit(a) == 0.0
  }

  lemma OpenedIsUnused(start: real)
    requires start >= 0.0
    ensures Unused(Opened(start))
  {
  }

  /** A new limiter stays within the integral of its limit: no SetLimit call is worth an extra token. */
  lemma RateSafety(start: real, events: seq<Event>)
    requires start >= 0.0 && Possible(Opened(start), events)
    ensures Run(Opened(start), events).pushed as real <= Allowance(Opened(start), events)
  {
    hide Credit, Allowance, Run, Possible, Earned;
    OpenedIsUnused(start);
    PushedWithinAllowance(Opened(start), events);
  }

  // ---------------------------------------------------------------------------------------------
  // One epoch: ticks and receives after a SetLimit

  /** The state SetLimit leaves behind, with whatever surplus the producer carries. */
  ghost predicate EpochStart(a: Account) {
    a.Valid() && a.ch == 0 && a.lastEvent == a.clock && a.limit > 0.0
  }

  lemma SetLimitStartsEpoch(a: Account, n: real, zeroAt: real, at: real)
    requires a.Valid() && a.clock <= zeroAt <= at
    ensures EpochStart(Limited(a, n, zeroAt, at))
    ensures Limited(a, n, zeroAt, at).surplus == a.surplus
  {
  }

  /** A consumer that empties the channel before every tick. */
  ghost predicate Keen(a: Account, events: seq<Event>)
    requires a.Valid() && Possible(a, events)
    decreases |events|
  {
    events != [] ==>
      && !events[0].SetLimit?
      && (events[0].Tick? ==> a.ch == 0)
      && Keen(Apply(a, events[0]), events[1..])
  }

  /** All credit between `t0` and the latest batch has become tokens, but for the surplus. */
  ghost predicate Settled(a: Account, t0: real, surplus0: real, base: nat) {
    && t0 <= a.lastEvent
    && a.pushed >= base
    && Earned(t0, a.lastEvent, a.limit) + surplus0 == (a.pushed - base) as real + a.surplus
  }

  lemma KeenTick(a: Account, now: real, t0: real, surplus0: real, base: nat)
    requires a.Valid() && a.ch == 0 && a.clock <= now && Settled(a, t0, surplus0, base)
    ensures var b := Ticked(a, now);
      && Settled(b, t0, surplus0, base)
      && b.limit == a.limit
      && b.pushed - base == Trunc(Earned(t0, now, a.limit) + surplus0)
  {
    hide Earned;
    EarnedNonNeg(a.lastEvent, now, a.limit);
    EarnedSplits(t0, a.lastEvent, now, a.limit);
  }

  lemma {:induction false} CarryRefinesFrom(a: Account, events: seq<Event>, now: real,
                                            t0: real, surplus0: real, base: nat)
    requires a.Valid() && Possible(a, events + [Tick(now)]) && Keen(a, events + [Tick(now)])
    requires Settled(a, t0, surplus0, base)
    ensures Run(a, events + [Tick(now)]).pushed - base == Trunc(Earned(t0, now, a.limit) + surplus0)
    decreases |events|
  {
    hide Ticked, Earned;
    var all := events + [Tick(now)];
    if events == [] {
      KeenTick(a, now, t0, surplus0, base);
      assert all[1..] == [];
    } else {
      assert all[1..] == events[1..] + [Tick(now)];
      if events[0].Tick? {
        KeenTick(a, events[0].now, t0, surplus0, base);
      }
      CarryRefinesFrom(Apply(a, events[0]), events[1..], now, t0, surplus0, base);
    }
  }

  /**
   The incremental producer, truncating at each tick and carrying the remainder, computes the closed
   form floor(limit * (t - t0) + surplus0) at each tick time t.
   */
  lemma CarryRefinesClosedForm(a: Account, events: seq<Event>, now: real)
    requires EpochStart(a) && Possible(a, events + [Tick(now)]) && Keen(a, events + [Tick(now)])
    ensures Run(a, events + [Tick(now)]).pushed - a.pushed
         == Trunc(Earned(a.clock, now, a.limit) + a.surplus)
  {
    hide Earned, Run, Possible, Keen;
    EarnedNothing(a.clock, a.limit);
    CarryRefinesFrom(a, events, now, a.clock, a.surplus, a.pushed);
  }

  /** How often the ticker fires in between does not matter. */
  lemma SchedulesAgree(a: Account, one: seq<Event>, two: seq<Event>, now: real)
    requires EpochStart(a)
    requires Possible(a, one + [Tick(now)]) && Keen(a, one + [Tick(now)])
    requires Possible(a, two + [Tick(now)]) && Keen(a, two + [Tick(now)])
    ensures Run(a, one + [Tick(now)]).pushed == Run(a, two + [Tick(now)]).pushed
  {
    hide Earned, Run, Possible, Keen;
    CarryRefinesClosedForm(a, one, now);
    CarryRefinesClosedForm(a, two, now);
  }

  // ---------------------------------------------------------------------------------------------
  // Nobody consumes

  /** The ticks evaluated at `times`, each at most `gap` after the one before, all of whose batches fit. */
  ghost predicate IdleTicks(a: Account, times: seq<real>, gap: real)
    requires a.Valid()
    decreases |times|
  {
    times != [] ==>
      && a.clock <= times[0] <= a.clock + gap
      && Ticked(a, times[0]).received == a.received
      && IdleTicks(Ticked(a, times[0]), times[1..], gap)
  }

  ghost function AfterTicks(a: Account, times: seq<real>, gap: real): (b: Account)
    requires a.Valid() && IdleTicks(a, times, gap)
    ensures b.Valid()
    decreases |times|
  {
    if times == [] then a else AfterTicks(Ticked(a, times[0]), times[1..], gap)
  }

  ghost predicate SquareBounded(c: real, step: real, spent: real) {
    c * c <= 2.0 * step * spent
  }

  /** A batch that raises the backlog from c to d is worth d, and raises it by at most `step`. */
  lemma SquareStep(c: real, d: real, step: real, spent: real)
    requires 0.0 <= c <= d <= c + step && SquareBounded(c, step, spent)
    ensures SquareBounded(d, step, spent + d)
  {
    MulMono(d - c, step, d + c);
    MulMono(d + c, 2.0 * d, step);
    assert d * d - c * c == (d - c) * (d + c);
    assert 2.0 * step * (spent + d) == 2.0 * step * spent + step * (2.0 * d);
  }

  /**
   Between batches: `spent`, what all batches since the epoch start were worth, bounds the square of the
   backlog, and the tokens a skipped tick saw did not exceed the backlog.
   */
  ghost predicate Idle(a: Account, t0: real, surplus0: real, rate: real, step: real, spent: real) {
    && a.Valid()
    && a.limit == rate
    && Earned(t0, a.lastEvent, rate) + surplus0 == spent + a.surplus
    && SquareBounded(a.ch as real, step, spent)
    && Credit(a) < a.ch as real + 1.0
  }

  lemma IdleTick(a: Account, now: real, t0: real, surplus0: real, rate: real, step: real, spent: real)
    returns (spent': real)
    requires Idle(a, t0, surplus0, rate, step, spent)
    requires a.clock <= now && Earned(a.clock, now, rate) + 1.0 <= step
    requires Ticked(a, now).received == a.received
    ensures Idle(Ticked(a, now), t0, surplus0, rate, step, spent')
  {
    hide Earned, SquareBounded;
    var level := Trunc(a.Tokens(now));
    EarnedNonNeg(a.lastEvent, now, rate);
    EarnedSplits(a.lastEvent, a.clock, now, rate);
    if level <= a.ch {
      spent' := spent;
    } else {
      spent' := spent + level as real;
      SquareStep(a.ch as real, level as real, step, spent);
      EarnedSplits(t0, a.lastEvent, now, rate);
      EarnedNothing(now, rate);
    }
  }

  lemma EarnedWithin(since: real, until: real, gap: real, rate: real)
    requires until - since <= gap && rate >= 0.0
    ensures Earned(since, until, rate) <= rate * gap
  {
    MulMono(until - since, gap, rate);
  }

  lemma {:induction false} IdleTicksKeep(a: Account, times: seq<real>, gap: real,
                                         t0: real, surplus0: real, rate: real, step: real, spent: real)
    returns (spent': real)
    requires a.Valid() && IdleTicks(a, times, gap)
    requires forall x, y :: x <= y <= x + gap ==> Earned(x, y, rate) + 1.0 <= step
    requires Idle(a, t0, surplus0, rate, step, spent)
    ensures Idle(AfterTicks(a, times, gap), t0, surplus0, rate, step, spent')
    decreases |times|
  {
    hide Earned, Idle, Ticked;
    if times == [] {
      spent' := spent;
    } else {
      var s := IdleTick(a, times[0], t0, surplus0, rate, step, spent);
      spent' := IdleTicksKeep(Ticked(a, times[0]), times[1..], gap, t0, surplus0, rate, step, s);
    }
  }

  lemma IdleBounded(b: Account, t0: real, surplus0: real, rate: real, step: real, spent: real)
    requires Idle(b, t0, surplus0, rate, step, spent) && surplus0 < 1.0 && step >= 0.0
    ensures b.ch as real * b.ch as real <= 2.0 * step * (Earned(t0, b.lastEvent, rate) + 1.0)
  {
    hide Earned;
    MulMono(spent, Earned(t0, b.lastEvent, rate) + 1.0, 2.0 * step);
  }

  /** The square-root bound from any epoch start. */
  lemma IdleBacklogFrom(a: Account, times: seq<real>, gap: real)
    requires EpochStart(a) && gap >= 0.0 && IdleTicks(a, times, gap)
    ensures var b := AfterTicks(a, times, gap);
      b.ch as real * b.ch as real
        <= 2.0 * (1.0 + a.limit * gap) * (Earned(a.clock, b.lastEvent, a.limit) + 1.0)
  {
    hide Earned, IdleTicks, AfterTicks;
    var step := 1.0 + a.limit * gap;
    MulNonNeg(a.limit, gap);
    forall x, y | x <= y <= x + gap ensures Earned(x, y, a.limit) + 1.0 <= step {
      EarnedWithin(x, y, gap, a.limit);
    }
    EarnedNothing(a.clock, a.limit);
    var spent := IdleTicksKeep(a, times, gap, a.clock, a.surplus, a.limit, step, 0.0);
    IdleBounded(AfterTicks(a, times, gap), a.clock, a.surplus, a.limit, step, spent);
  }

  /**
   After a SetLimit an idle channel fills only like the square root of time: `lastEvent` is the time of the latest
   completed batch, and len(ch)^2 <= 2 * (1 + limit * gap) * (limit * T + 1) with T measured up to that batch.
   */
  lemma IdleBacklog(a: Account, n: real, zeroAt: real, at: real, times: seq<real>, gap: real)
    requires a.Valid() && a.clock <= zeroAt <= at && gap >= 0.0
    requires IdleTicks(Limited(a, n, zeroAt, at), times, gap)
    ensures var rate := Effective(n);
      var b := AfterTicks(Limited(a, n, zeroAt, at), times, gap);
      b.ch as real * b.ch as real <= 2.0 * (1.0 + rate * gap) * (Earned(at, b.lastEvent, rate) + 1.0)
  {
    hide IdleTicks, AfterTicks, Earned;
    SetLimitStartsEpoch(a, n, zeroAt, at);
    IdleBacklogFrom(Limited(a, n, zeroAt, at), times, gap);
  }

  // ---------------------------------------------------------------------------------------------
  // A consumer that stalls and comes back

  ghost predicate SameEpoch(events: seq<Event>) {
    forall i :: 0 <= i < |events| ==> !events[i].SetLimit?
  }

  lemma TickKeeps(a: Account, now: real)
    requires a.Valid() && a.clock <= now
    ensures var b := Ticked(a, now);
      b.limit == a.limit && b.drained == a.drained && b.lost == a.lost && b.clock == now
  {
    hide Earned;
  }

  lemma {:induction false} EpochKeepsLimit(a: Account, events: seq<Event>)
    requires a.Valid() && Possible(a, events) && SameEpoch(events)
    ensures Run(a, events).limit == a.limit
    ensures Run(a, events).drained == a.drained
    ensures Run(a, events).lost == a.lost
    ensures Allowance(a, events) == Earned(a.clock, Run(a, events).clock, a.limit)
    decreases |events|
  {
    hide Ticked, Limited, Earned;
    EarnedNothing(a.clock, a.limit);
    if events != [] {
      assert !events[0].SetLimit?;
      assert SameEpoch(events[1..]);
      if events[0].Tick? {
        TickKeeps(a, events[0].now);
      }
      var b := Apply(a, events[0]);
      EpochKeepsLimit(b, events[1..]);
      EarnedSplits(a.clock, b.clock, Run(b, events[1..]).clock, a.limit);
    }
  }

  /** After a tick the standing credit is below one token more than the backlog it saw or left. */
  lemma CreditAfterTick(a: Account, now: real)
    requires a.Valid() && a.clock <= now
    ensures Credit(Ticked(a, now)) < Ticked(a, now).ch as real + 1.0
    ensures Ticked(a, now).clock == now && Ticked(a, now).limit == a.limit
  {
    hide Earned;
    EarnedNonNeg(a.lastEvent, now, a.limit);
    EarnedNothing(now, a.limit);
  }

  /**
   The consumer can take at most twice the backlog above the steady rate: once from the channel, once from
   the credit that skipped ticks left standing.
   */
  lemma BurstFrom(t: Account, events: seq<Event>)
    requires t.Valid() && Credit(t) < t.ch as real + 1.0
    requires Possible(t, events) && SameEpoch(events)
    ensures (Run(t, events).received - t.received) as real
          < 2.0 * t.ch as real + Earned(t.clock, Run(t, events).clock, t.limit) + 1.0
  {
    hide Credit, Allowance, Run, Possible, Earned;
    var b := Run(t, events);
    EpochKeepsLimit(t, events);
    PushedWithinAllowance(t, events);
    assert b.pushed == b.ch + b.drained + b.received;
    assert t.pushed == t.ch + t.drained + t.received;
  }

  /** The backlog may be the one a tick at `now` saw and skipped, or the one its batch left. */
  lemma BurstBound(a: Account, now: real, events: seq<Event>)
    requires a.Valid() && a.clock <= now
    requires Possible(Ticked(a, now), events) && SameEpoch(events)
    ensures var t := Ticked(a, now);
      var b := Run(t, events);
      (b.received - t.received) as real < 2.0 * t.ch as real + Earned(now, b.clock, a.limit) + 1.0
  {
    hide Ticked, Credit, Run, Possible, Earned;
    CreditAfterTick(a, now);
    BurstFrom(Ticked(a, now), events);
  }
}
