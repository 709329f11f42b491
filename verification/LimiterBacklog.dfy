/**
 Backlog and bursts in every interleaving of the limiter protocol: how slowly a channel that nobody empties fills up,
 and what a consumer that comes back can take at once.
 */
module LimiterBacklog {
  import opened Numbers
  import opened RateLimiter
  import opened LimiterProtocol
  import opened LimiterLate
  import B = LimiterBounds

  // ---------------------------------------------------------------------------------------------
  // Nobody consumes

  ghost predicate Unconsumed(steps: seq<Step>) {
    forall i :: 0 <= i < |steps| ==> !steps[i].StoreZero? && !steps[i].StoreNew? && !steps[i].LoadTake?
  }

  /** The time of the producer's latest read of the clock, `last` before the step. */
  ghost function ReadAt(s: State, e: Step, last: real): real {
    if e.ReadClock? then s.clock else last
  }

  /** The producer reads the clock at most `gap` after it last did, at `last`, and so on. */
  ghost predicate ReadsWithin(s: State, steps: seq<Step>, last: real, gap: real)
    requires Feasible(s, steps)
    decreases |steps|
  {
    steps != [] ==>
      && ReadAt(s, steps[0], last) <= last + gap
      && ReadsWithin(Next(s, steps[0]), steps[1..], ReadAt(s, steps[0], last), gap)
  }

  /** The tokens in the channel and those the producer is about to push. */
  ghost function Level(s: State): nat {
    s.ch + if s.producer.Pushing? then s.producer.left else 0
  }

  /** What all batches of the epoch were worth. */
  ghost function Spent(s: State): int {
    s.book.pushed + s.book.forfeited + if s.producer.Pushing? then s.producer.left else 0
  }

  /** The credit at time `at`. */
  ghost function Standing(s: State, at: real): real {
    Earned(s.lastEvent, at, s.limit) + s.surplus
  }

  /** An epoch's start and rate, the most a batch can raise the level, and what its first level counts as. */
  datatype Watch = Watch(start: real, rate: real, step: real, debt: real)

  /** The read is worth no token, and the credit is what it was. */
  ghost predicate Fruitless(s: State, tokens: real, last: real) {
    tokens < 1.0 && Standing(s, last) < s.ch as real + 1.0
  }

  /** A read of this epoch, worth at most `step` above the level. */
  ghost predicate Fresh(s: State, now: real, tokens: real, w: Watch, last: real) {
    now == last && tokens < s.ch as real + w.step
  }

  /**
   In an epoch with no consumer and no stale batch, `last` being the latest read: what the batches were worth
   bounds the square of the level, and the credit exceeds the level by less than a token, or `step` while a read is
   acted on.
   */
  ghost predicate Idle(s: State, w: Watch, last: real) {
    && s.limit == w.rate
    && s.book.start == w.start
    && last <= s.clock
    && !s.control.Draining? && !s.control.Restoring?
    && s.book.staleBatches == 0
    && s.book.carried < 1.0
    && B.SquareBounded(Level(s) as real, w.step, w.debt + Spent(s) as real)
    && match s.producer
       case Selecting => Standing(s, last) < s.ch as real + 1.0
       case Woken => Standing(s, last) < s.ch as real + 1.0
       case Locking(now) => Fruitless(s, Standing(s, now), last) || Fresh(s, now, Standing(s, now), w, last)
       case Counting(now, tokens, born) =>
         Fruitless(s, tokens, last) || (born == s.epoch && Fresh(s, now, tokens, w, last))
       case Pushing(now, _, born) => now == last && born == s.epoch
       case Exited => true
  }

  lemma IdleAtFirst(s: State, w: Watch)
    requires Good(s) && CanStep(s, StoreNew) && NoBatch(s)
    requires w.start == s.clock && w.rate == s.control.n && B.SquareBounded(s.ch as real, w.step, w.debt)
    ensures Idle(Next(s, StoreNew), w, s.clock)
  {
    hide Earned, B.SquareBounded;
    EarnedNothing(s.clock, s.control.n);
    if s.producer.Locking? {
      EarnedNonNeg(s.producer.now, s.clock, s.control.n);
      EarnedSplits(s.clock, s.producer.now, s.clock, s.control.n);
    }
  }

  lemma ReadKeepsIdle(s: State, w: Watch, last: real)
    requires Good(s) && CanStep(s, ReadClock) && Idle(s, w, last)
    requires Earned(last, s.clock, w.rate) + 1.0 <= w.step
    ensures Idle(Next(s, ReadClock), w, s.clock)
  {
    hide Earned, B.SquareBounded;
    EarnedSplits(s.lastEvent, last, s.clock, w.rate);
  }

  /** A batch raises the level from len(ch) to int(tokens), and is worth that much. */
  lemma MeasureKeepsIdle(s: State, w: Watch, last: real)
    requires Good(s) && CanStep(s, Measure) && Idle(s, w, last)
    ensures Idle(Next(s, Measure), w, last)
  {
    hide Earned, B.SquareBounded;
    var level := Trunc(s.producer.tokens);
    if level > s.ch {
      B.SquareStep(s.ch as real, level as real, w.step, w.debt + Spent(s) as real);
      var t := Measured(s);
      assert Spent(t) == Spent(s) + level && Level(t) == level;
      assert w.debt + Spent(t) as real == w.debt + Spent(s) as real + level as real;
    }
  }

  lemma PublishKeepsIdle(s: State, w: Watch, last: real)
    requires Good(s) && CanStep(s, Publish) && Idle(s, w, last)
    ensures Idle(Next(s, Publish), w, last)
  {
    hide Earned, B.SquareBounded;
    EarnedNothing(last, w.rate);
  }

  lemma ClearKeepsIdle(s: State, w: Watch, last: real)
    requires Good(s) && CanStep(s, ClearOne) && Idle(s, w, last)
    ensures Idle(Next(s, ClearOne), w, last)
  {
    hide Earned;
    var c, d := s.ch as real - 1.0, s.ch as real;
    MulMono(c, d, c);
    MulMono(c, d, d);
  }

  /** Steps of the control, the ticker and load; the producer takes a tick, computes or pushes. */
  lemma OtherKeepsIdle(s: State, e: Step, w: Watch, last: real)
    requires ProducerOk(s) && CanStep(s, e) && Idle(s, w, last)
    requires !e.StoreZero? && !e.StoreNew? && !e.LoadTake?
    requires !e.ReadClock? && !e.Measure? && !e.Publish? && !e.ClearOne?
    ensures Idle(Next(s, e), w, last)
  {
    hide Earned, B.SquareBounded, Measured, Published, Stored, Effective;
  }

  lemma StepKeepsIdle(s: State, e: Step, w: Watch, last: real)
    requires Good(s) && CanStep(s, e) && Idle(s, w, last)
    requires !e.StoreZero? && !e.StoreNew? && !e.LoadTake?
    requires e.ReadClock? ==> Earned(last, s.clock, w.rate) + 1.0 <= w.step
    ensures Idle(Next(s, e), w, ReadAt(s, e, last))
  {
    hide Earned, Idle, Next, CanStep;
    match e {
      case ReadClock => ReadKeepsIdle(s, w, last);
      case Measure => MeasureKeepsIdle(s, w, last);
      case Publish => PublishKeepsIdle(s, w, last);
      case ClearOne => ClearKeepsIdle(s, w, last);
      case _ => OtherKeepsIdle(s, e, w, last);
    }
  }

  lemma {:induction false} RunKeepsIdle(s: State, steps: seq<Step>, w: Watch, last: real, gap: real)
    returns (last': real)
    requires Good(s) && Feasible(s, steps) && Unconsumed(steps) && ReadsWithin(s, steps, last, gap)
    requires Idle(s, w, last)
    requires forall x, y :: y <= x + gap ==> Earned(x, y, w.rate) + 1.0 <= w.step
    ensures Idle(Exec(s, steps), w, last')
    decreases |steps|
  {
    hide Good, CanStep, Next, Idle, Earned;
    if steps == [] {
      last' := last;
    } else {
      assert !steps[0].StoreZero? && !steps[0].StoreNew? && !steps[0].LoadTake?;
      assert Unconsumed(steps[1..]);
      StepKeepsGood(s, steps[0]);
      StepKeepsIdle(s, steps[0], w, last);
      last' := RunKeepsIdle(Next(s, steps[0]), steps[1..], w, ReadAt(s, steps[0], last), gap);
    }
  }

  /** The clock reading of the latest batch, finished or not. */
  ghost function LatestBatch(s: State): real {
    if s.producer.Pushing? then s.producer.now else s.lastEvent
  }

  lemma SpentIsEarned(s: State, w: Watch, last: real)
    requires Good(s) && Idle(s, w, last)
    ensures B.SquareBounded(Level(s) as real, w.step, w.debt + Spent(s) as real)
    ensures Spent(s) as real <= Earned(w.start, LatestBatch(s), w.rate) + 1.0
  {
    hide Earned, B.SquareBounded;
    EarnedNothing(w.start, w.rate);
  }

  lemma SquareAtFirst(c: real, step: real) returns (debt: real)
    requires step > 0.0
    ensures B.SquareBounded(c, step, debt) && 2.0 * step * debt == c * c
  {
    debt := c * c / (2.0 * step);
  }

  lemma SquareAtLast(c: real, d: real, step: real, debt: real, spent: real, worth: real)
    requires B.SquareBounded(d, step, debt + spent) && 2.0 * step * debt == c * c
    requires step > 0.0 && spent <= worth
    ensures d * d <= c * c + 2.0 * step * worth
  {
    MulMono(spent, worth, 2.0 * step);
    assert 2.0 * step * (debt + spent) == 2.0 * step * debt + 2.0 * step * spent;
  }

  /**
   From a SetLimit that overtakes no batch, in every interleaving in which nobody consumes: if the producer reads the
   clock at least every `gap`, the level grows only like the square root of the time up to the latest batch.
   */
  lemma IdleBacklog(s: State, steps: seq<Step>, gap: real)
    requires Good(s) && CanStep(s, StoreNew) && NoBatch(s) && gap >= 0.0
    requires Feasible(Next(s, StoreNew), steps) && Unconsumed(steps)
    requires ReadsWithin(Next(s, StoreNew), steps, s.clock, gap)
    ensures var rate := s.control.n;
      var t := Exec(Next(s, StoreNew), steps);
      var c, d := s.ch as real, Level(t) as real;
      d * d <= c * c + 2.0 * (1.0 + rate * gap) * (Earned(s.clock, LatestBatch(t), rate) + 1.0)
  {
    hide Good, Idle, Earned, Feasible, Exec, ReadsWithin, B.SquareBounded;
    var s0 := Next(s, StoreNew);
    var t := Exec(s0, steps);
    var rate, c := s.control.n, s.ch as real;
    NewLimitIsPositive(s);
    MulNonNeg(rate, gap);
    var step := 1.0 + rate * gap;
    forall x, y | y <= x + gap ensures Earned(x, y, rate) + 1.0 <= step {
      B.EarnedWithin(x, y, gap, rate);
    }
    var debt := SquareAtFirst(c, step);
    var w := Watch(s.clock, rate, step, debt);
    IdleAtFirst(s, w);
    SetLimitOpensEpoch(s, StoreNew);
    var last := RunKeepsIdle(s0, steps, w, s.clock, gap);
    RunKeepsGood(s0, steps);
    SpentIsEarned(t, w, last);
    SquareAtLast(c, Level(t) as real, step, w.debt, Spent(t) as real, Earned(s.clock, LatestBatch(t), rate) + 1.0);
  }

  // ---------------------------------------------------------------------------------------------
  // A consumer that stalls and comes back

  /** How many tokens `load` takes. */
  ghost function Taken(steps: seq<Step>): nat {
    if steps == [] then 0 else (if steps[0].LoadTake? then 1 else 0) + Taken(steps[1..])
  }

  lemma StepMovesTokens(s: State, e: Step)
    requires CanStep(s, e)
    ensures Next(s, e).ch + (if e.LoadTake? then 1 else 0) <= s.ch + if e.Push? then 1 else 0
  {
    hide Earned, Trunc;
  }

  lemma {:induction false} TakenWerePushed(s: State, steps: seq<Step>)
    requires Feasible(s, steps)
    ensures Taken(steps) + Exec(s, steps).ch <= s.ch + Pushes(steps)
    decreases |steps|
  {
    hide CanStep, Next;
    if steps != [] {
      StepMovesTokens(s, steps[0]);
      TakenWerePushed(Next(s, steps[0]), steps[1..]);
    }
  }

  lemma StepOnTime(s: State, e: Step)
    requires CanStep(s, e) && !e.StoreZero? && !e.StoreNew? && !HasStaleBatch(s)
    ensures var t := Next(s, e);
      && !HasStaleBatch(t)
      && t.limit == s.limit
      && Refund(s, e) == 0.0
      && Worth(s, e) == Earned(s.clock, t.clock, s.limit)
  {
    hide Earned;
    EarnedNothing(s.clock, s.limit);
  }

  /** Within an epoch and without a stale batch the integral is what the rate is worth, and nothing is paid twice. */
  lemma {:induction false} RunOnTime(s: State, steps: seq<Step>)
    requires Feasible(s, steps) && WithinEpoch(steps) && !HasStaleBatch(s)
    ensures LateCredit(s, steps) == 0.0
    ensures Integral(s, steps) == Earned(s.clock, Exec(s, steps).clock, s.limit)
    decreases |steps|
  {
    hide Earned, CanStep, Next, HasStaleBatch, Refund, Worth;
    EarnedNothing(s.clock, s.limit);
    if steps != [] {
      assert !steps[0].StoreZero? && !steps[0].StoreNew?;
      assert WithinEpoch(steps[1..]);
      StepOnTime(s, steps[0]);
      var t := Next(s, steps[0]);
      RunOnTime(t, steps[1..]);
      EarnedSplits(s.clock, t.clock, Exec(t, steps[1..]).clock, s.limit);
    }
  }

  /** From any state without a stale batch: what is in the channel, what is owed, and what the rate is worth since. */
  lemma TakenWithinCredit(s: State, steps: seq<Step>)
    requires Good(s) && !HasStaleBatch(s)
    requires Feasible(s, steps) && WithinEpoch(steps)
    ensures Taken(steps) as real <= s.ch as real + Owed(s) + Earned(s.clock, Exec(s, steps).clock, s.limit)
  {
    hide Earned, Good, HasStaleBatch, Feasible, Exec, WithinEpoch, Owed, Integral, LateCredit, Pushes, Taken;
    TakenWerePushed(s, steps);
    RunOnTime(s, steps);
    RunPays(s, steps);
    RunKeepsGood(s, steps);
    OwedNonNeg(Exec(s, steps));
  }

  lemma MeasuredIsOwed(s: State)
    requires Good(s) && CanStep(s, Measure) && !HasStaleBatch(s)
    ensures var Counting(now, tokens, _) := s.producer;
      Next(s, Measure).ch as real + Owed(Next(s, Measure))
        == Earned(now, s.clock, s.limit) + tokens + if Trunc(tokens) <= s.ch then s.ch as real else 0.0
  {
    hide Earned;
    EarnedSplits(s.lastEvent, s.producer.now, s.clock, s.limit);
  }

  /**
   From the moment the producer reads the length L of the channel, in every interleaving of the rest of the epoch:
   `load` takes fewer than 2 * L + 1 tokens above the steady rate if the tick is skipped, once from the channel and
   once from the credit that stays standing, and at most the computed tokens above it if there is a batch. The time
   counts from the producer's read of the clock.
   */
  lemma BurstBound(s: State, steps: seq<Step>)
    requires Good(s) && CanStep(s, Measure) && !HasStaleBatch(s)
    requires Feasible(Next(s, Measure), steps) && WithinEpoch(steps)
    ensures var Counting(now, tokens, _) := s.producer;
      var worth := Earned(now, Exec(Next(s, Measure), steps).clock, s.limit);
      if Trunc(tokens) <= s.ch
      then Taken(steps) as real < 2.0 * s.ch as real + 1.0 + worth
      else Taken(steps) as real <= tokens + worth
  {
    hide Earned, Good, Owed, Feasible, Exec, WithinEpoch, Taken;
    StepKeepsGood(s, Measure);
    MeasuredIsOwed(s);
    var t := Next(s, Measure);
    TakenWithinCredit(t, steps);
    EarnedSplits(s.producer.now, s.clock, Exec(t, steps).clock, s.limit);
  }
}
