/**
 What a batch computed before SetLimit does after it: when SetLimit keeps its promise of an empty channel, when the
 new rate is kept, and what a whole run can push in the worst case.
 */
module LimiterLate {
  import opened Numbers
  import opened RateLimiter
  import opened Wrappers
  import opened LimiterProtocol
  import opened LimiterRuns
  import opened LimiterControl

  // ---------------------------------------------------------------------------------------------
  // Is the channel empty when SetLimit returns?

  ghost predicate BeforeStore(steps: seq<Step>) {
    forall i :: 0 <= i < |steps| ==> !steps[i].StoreNew?
  }

  /** SetLimit has drained the channel, and a token can get in before it returns. */
  ghost predicate CanLeaveTokens(s: State) {
    exists steps :: Feasible(s, steps) && BeforeStore(steps) && Exec(s, steps).ch > 0
  }

  lemma {:induction false} NothingCommittedStaysEmpty(s: State, steps: seq<Step>)
    requires Good(s) && s.control.Restoring? && s.ch == 0 && Committed(s) == 0
    requires Feasible(s, steps) && BeforeStore(steps)
    ensures Exec(s, steps).ch == 0
    decreases |steps|
  {
    hide Good, Committed;
    if steps != [] {
      assert !steps[0].StoreNew?;
      StepKeepsGood(s, steps[0]);
      DrainStep(s, steps[0]);
      assert BeforeStore(steps[1..]);
      NothingCommittedStaysEmpty(Next(s, steps[0]), steps[1..]);
    }
  }

  /**
   SetLimit promises an empty channel. Once its drain has ended, it keeps that promise in every interleaving
   if and only if the producer is not committed to pushes of a batch it computed before.
   */
  lemma SetLimitLeavesTokensIff(s: State)
    requires Good(s) && s.control.Restoring? && s.ch == 0
    ensures CanLeaveTokens(s) <==> Committed(s) > 0
  {
    if Committed(s) == 0 {
      forall steps | Feasible(s, steps) && BeforeStore(steps) ensures Exec(s, steps).ch == 0 {
        NothingCommittedStaysEmpty(s, steps);
      }
    } else if s.producer.Pushing? {
      var steps := [Push];
      assert steps[1..] == [];
      assert Feasible(s, steps) && BeforeStore(steps) && Exec(s, steps).ch > 0;
    } else {
      var steps := [Measure, Push];
      assert steps[1..] == [Push] && [Push][1..] == [];
      assert Measured(s).producer.left > 0;
      assert Feasible(s, steps) && BeforeStore(steps) && Exec(s, steps).ch > 0;
    }
  }

  // ---------------------------------------------------------------------------------------------
  // The promises of SetLimit, at the call

  /** SetLimit, called in s, can return after the steps `pre`. */
  ghost predicate ReturnsBy(s: State, pre: seq<Step>) {
    BeforeStore(pre) && Feasible(s, pre + [StoreNew])
  }

  /** The state in which it returns. */
  ghost function After(s: State, pre: seq<Step>): State
    requires ReturnsBy(s, pre)
  {
    Exec(s, pre + [StoreNew])
  }

  ghost predicate CanReturnWithTokens(s: State) {
    exists pre :: ReturnsBy(s, pre) && After(s, pre).ch > 0
  }

  /** During a SetLimit that found limit 0: no batch, and an empty channel once the drain is over. */
  ghost predicate FirstSetLimit(s: State) {
    && InSetLimit(s)
    && s.limit == 0.0
    && NoBatch(s)
    && (s.control.Restoring? ==> s.ch == 0)
  }

  lemma FirstSetLimitStep(s: State, e: Step)
    requires Good(s) && FirstSetLimit(s) && CanStep(s, e) && !e.StoreNew?
    ensures FirstSetLimit(Next(s, e))
  {
    if e == Compute {
      EarnedAtZero(s.lastEvent, s.producer.now);
    }
  }

  /** The producer works on a batch that read the clock before now and will end by setting lastEvent back. */
  ghost predicate Late(s: State) {
    match s.producer
    case Counting(now, tokens, _) => Trunc(tokens) >= 1 && now < s.clock
    case Pushing(now, _, _) => now < s.clock
    case _ => false
  }

  lemma FirstSetLimitEnds(s: State)
    requires Good(s) && FirstSetLimit(s) && CanStep(s, StoreNew)
    ensures var t := Next(s, StoreNew); t.ch == 0 && t.control.Free? && !Late(t)
  {
  }

  lemma {:induction false} FirstSetLimitReturns(s: State, pre: seq<Step>)
    requires Good(s) && FirstSetLimit(s) && ReturnsBy(s, pre)
    ensures var t := After(s, pre); t.ch == 0 && t.control.Free? && !Late(t)
    decreases |pre|
  {
    hide Good, FirstSetLimit, Next, CanStep;
    if pre == [] {
      assert pre + [StoreNew] == [StoreNew] && [StoreNew][1..] == [];
      assert CanStep(s, StoreNew);
      PathOne(s, StoreNew);
      FirstSetLimitEnds(s);
    } else {
      assert (pre + [StoreNew])[1..] == pre[1..] + [StoreNew];
      assert !pre[0].StoreNew?;
      StepKeepsGood(s, pre[0]);
      FirstSetLimitStep(s, pre[0]);
      assert BeforeStore(pre[1..]);
      FirstSetLimitReturns(Next(s, pre[0]), pre[1..]);
    }
  }

  ghost function Phase(s: State): nat {
    match s.producer
    case Woken => 4
    case Locking(_) => 3
    case Counting(_, _, _) => 2
    case Pushing(_, _, _) => 2
    case _ => 0
  }

  lemma OneTokenLater(since: real, now: real, rate: real)
    requires since <= now && rate > 0.0
    ensures Earned(since, now + 1.0 / rate, rate) >= 1.0
  {
    EarnedNonNeg(since, now, rate);
    EarnedSplits(since, now, now + 1.0 / rate, rate);
    assert Earned(now, now + 1.0 / rate, rate) == (1.0 / rate) * rate;
  }

  lemma GoodAtSelect(s: State)
    requires Good(s) && s.control.Zeroing?
    ensures s.lastEvent <= s.clock && s.ticking && s.surplus >= 0.0
  {
  }

  lemma BatchFromSelect(s: State) returns (steps: seq<Step>)
    requires Good(s) && s.control.Zeroing? && s.limit > 0.0 && s.producer.Selecting?
    ensures WithinEpoch(steps) && Feasible(s, steps)
    ensures var t := Exec(s, steps); Good(t) && t.control == s.control && Committed(t) > 0
  {
    hide Earned, Path, Feasible, Exec, Good, WithinEpoch;
    var dt := 1.0 / s.limit;
    var t := s.(clock := s.clock + dt);
    assert s.lastEvent <= s.clock && s.ticking && s.surplus >= 0.0 by {
      GoodAtSelect(s);
    }
    OneTokenLater(s.lastEvent, s.clock, s.limit);
    PathOne(s, Elapse(dt));
    TickComputes(t);
    SingleStaysInEpoch(Elapse(dt));
    WithinEpochJoin([Elapse(dt)], TickSteps(t));
    PathJoin(s, [Elapse(dt)], t, TickSteps(t), Computed(t));
    steps := [Elapse(dt)] + TickSteps(t);
    PathKeepsGood(s, steps, Computed(t));
    PathEnds(s, steps, Computed(t));
  }

  /** The producer's next step when it has nothing committed and is not at its select. */
  ghost function NextInLoop(s: State): Step {
    match s.producer
    case Woken => ReadClock
    case Locking(_) => Compute
    case Counting(_, _, _) => Measure
    case _ => Publish
  }

  lemma LoopAdvances(s: State)
    requires Good(s) && s.control.Zeroing? && Committed(s) == 0 && !s.producer.Selecting?
    ensures CanStep(s, NextInLoop(s)) && WithinEpoch([NextInLoop(s)])
    ensures var t := Next(s, NextInLoop(s)); t.control == s.control && t.limit == s.limit && Phase(t) < Phase(s)
  {
    hide Earned;
  }

  lemma EpochOfNothing()
    ensures WithinEpoch([])
  {
  }

  /** Under a positive limit the producer can always get to a batch before the limit is set to 0. */
  lemma {:induction false} BatchBeforeStore(s: State) returns (steps: seq<Step>)
    requires Good(s) && s.control.Zeroing? && s.limit > 0.0
    ensures WithinEpoch(steps) && Feasible(s, steps)
    ensures var t := Exec(s, steps); Good(t) && t.control == s.control && Committed(t) > 0
    decreases Phase(s)
  {
    hide Good, CanStep, Next, Committed, Path, WithinEpoch, NextInLoop, Phase;
    if Committed(s) > 0 {
      steps := [];
      EpochOfNothing();
    } else if s.producer.Selecting? {
      steps := BatchFromSelect(s);
    } else {
      var e := NextInLoop(s);
      LoopAdvances(s);
      StepKeepsGood(s, e);
      var t := Next(s, e);
      var rest := BatchBeforeStore(t);
      steps := [e] + rest;
      PathJoinsExec(t, rest);
      PathCons(s, e, rest, Exec(t, rest));
      PathEnds(s, steps, Exec(t, rest));
      WithinEpochJoin([e], rest);
    }
  }

  ghost function DrainSteps(n: nat): seq<Step> {
    if n == 0 then [DrainDone] else [DrainOne] + DrainSteps(n - 1)
  }

  lemma {:induction false} DrainAlone(s: State)
    requires s.control.Draining?
    ensures Path(s, DrainSteps(s.ch), s.(ch := 0, control := Restoring(s.control.n)))
    ensures BeforeStore(DrainSteps(s.ch))
    decreases s.ch
  {
    if s.ch == 0 {
      PathOne(s, DrainDone);
    } else {
      DrainAlone(Next(s, DrainOne));
      PathCons(s, DrainOne, DrainSteps(s.ch - 1), s.(ch := 0, control := Restoring(s.control.n)));
    }
  }

  /** The controlling goroutine runs undisturbed from its call to the end of its drain. */
  ghost function ToRestoring(s: State): seq<Step> {
    [StoreZero] + DrainSteps(s.ch)
  }

  ghost function Drained(s: State): State
    requires s.control.Zeroing?
  {
    Stored(s, 0.0).(ch := 0, control := Restoring(s.control.n))
  }

  lemma DrainsUndisturbed(s: State)
    requires s.control.Zeroing?
    ensures Path(s, ToRestoring(s), Drained(s)) && BeforeStore(ToRestoring(s))
  {
    var t := Next(s, StoreZero);
    DrainAlone(t);
    PathCons(s, StoreZero, DrainSteps(s.ch), Drained(s));
  }

  lemma {:induction false} StaysRestoring(s: State, steps: seq<Step>)
    requires Good(s) && s.control.Restoring? && Feasible(s, steps) && BeforeStore(steps)
    ensures Exec(s, steps).control == s.control
    decreases |steps|
  {
    hide Good;
    if steps != [] {
      assert !steps[0].StoreNew?;
      StepKeepsGood(s, steps[0]);
      DrainStep(s, steps[0]);
      assert BeforeStore(steps[1..]);
      StaysRestoring(Next(s, steps[0]), steps[1..]);
    }
  }

  lemma BeforeStoreJoin(a: seq<Step>, b: seq<Step>)
    requires BeforeStore(a) && BeforeStore(b)
    ensures BeforeStore(a + b)
  {
  }

  lemma EpochIsBeforeStore(steps: seq<Step>)
    requires WithinEpoch(steps)
    ensures BeforeStore(steps)
  {
  }

  lemma TokensLeft(s: State) returns (steps: seq<Step>)
    requires CanLeaveTokens(s)
    ensures Feasible(s, steps) && BeforeStore(steps) && Exec(s, steps).ch > 0
  {
    steps :| Feasible(s, steps) && BeforeStore(steps) && Exec(s, steps).ch > 0;
  }

  lemma CommittedStays(s: State)
    requires s.control.Zeroing?
    ensures Committed(Drained(s)) == Committed(s)
  {
  }

  lemma TokensCanRemain(s: State)
    requires Good(s) && s.control.Zeroing? && s.limit > 0.0
    ensures CanReturnWithTokens(s)
  {
    hide Good, Feasible, Exec, Committed, BeforeStore, CanLeaveTokens;
    var a := BatchBeforeStore(s);
    var t := Exec(s, a);
    DrainsUndisturbed(t);
    var b, u := ToRestoring(t), Drained(t);
    PathJoin(s, a, t, b, u);
    PathKeepsGood(s, a + b, u);
    CommittedStays(t);
    SetLimitLeavesTokensIff(u);
    var c := TokensLeft(u);
    var v := Exec(u, c);
    StaysRestoring(u, c);
    PathJoin(s, a + b, u, c, v);
    PathSnoc(s, a + b + c, v, StoreNew);
    EpochIsBeforeStore(a);
    BeforeStoreJoin(a, b);
    BeforeStoreJoin(a + b, c);
    assert ReturnsBy(s, a + b + c) && After(s, a + b + c).ch > 0;
  }

  /**
   SetLimit promises an empty channel. The promise is kept in every interleaving if and only if the limit in force at
   the call is 0, that is, only by the first SetLimit on a limiter.
   */
  lemma SetLimitMayLeaveTokensIff(s: State)
    requires Good(s) && s.control.Zeroing?
    ensures CanReturnWithTokens(s) <==> s.limit > 0.0
  {
    if s.limit > 0.0 {
      TokensCanRemain(s);
    } else {
      assert FirstSetLimit(s);
      forall pre | ReturnsBy(s, pre) ensures After(s, pre).ch == 0 {
        FirstSetLimitReturns(s, pre);
      }
    }
  }

  // ---------------------------------------------------------------------------------------------
  // Is the new rate kept?

  /** The epoch has pushed no more than the rate since its start, what it carried, and the stale batch's rest. */
  ghost predicate RateHolds(t: State) {
    t.book.pushed as real <= t.book.stale as real + t.book.carried + Earned(t.book.start, t.clock, t.limit)
  }

  ghost predicate RateKept(s0: State) {
    forall steps :: Feasible(s0, steps) && WithinEpoch(steps) ==> RateHolds(Exec(s0, steps))
  }

  lemma AnchoredOnTime(s0: State, t: State, read: Option<nat>)
    requires Good(s0) && JustStored(s0) && !Late(s0) && Good(t) && Anchored(s0, t, read)
    ensures RateHolds(t)
  {
    hide Earned;
    var b := t.book;
    EarnedNonNeg(b.start, t.clock, t.limit);
    if !HasStaleBatch(t) {
      assert b.base == b.start;
      var last := if t.producer.Pushing? then t.producer.now else t.lastEvent;
      EarnedSplits(b.start, last, t.clock, t.limit);
      EarnedNonNeg(last, t.clock, t.limit);
    }
  }

  lemma PunctualKeepsRate(s: State)
    requires Good(s) && CanStep(s, StoreNew) && !Late(Next(s, StoreNew))
    ensures RateKept(Next(s, StoreNew))
  {
    hide Good, JustStored, Anchored, Late, Next, CanStep, RateHolds;
    var s0 := Next(s, StoreNew);
    SetLimitOpensEpoch(s, StoreNew);
    forall steps | Feasible(s0, steps) && WithinEpoch(steps) ensures RateHolds(Exec(s0, steps)) {
      RunKeepsGood(s0, steps);
      EpochAnchors(s0, s0, steps, None);
      AnchoredOnTime(s0, Exec(s0, steps), FirstRead(None, s0, steps));
    }
  }

  // The failing half: finish the late batch, empty the channel, and tick when the tokens are whole.

  /** The late batch is done and its time is paid for again. */
  ghost predicate Overdue(s0: State, t: State) {
    && t.producer.Selecting? && t.load.Receiving? && t.ticking && t.ch == 0
    && t.limit == s0.limit && t.epoch == s0.epoch
    && t.book.start == t.clock
    && t.lastEvent < t.clock
    && t.book.pushed == t.book.stale
    && t.book.carried == t.surplus
  }

  /** From the first push of a late batch, with an empty channel, to the producer's select. */
  lemma FinishPushing(s: State) returns (steps: seq<Step>)
    requires Good(s) && s.producer.Pushing? && HasStaleBatch(s) && s.load.Receiving?
    ensures WithinEpoch(steps) && Path(s, steps, Emptied(Published(Filled(s))))
  {
    hide Path, WithinEpoch;
    var a := PushSteps(s.ch, s.producer.left);
    PushesFill(s);
    PushStepsStayInEpoch(s.ch, s.producer.left);
    PathSnoc(s, a, Filled(s), Publish);
    var t := Published(Filled(s));
    LoadTakesAll(t);
    PathJoin(s, a + [Publish], t, Takes(t.ch), Emptied(t));
    steps := a + [Publish] + Takes(t.ch);
    SingleStaysInEpoch(Publish);
    WithinEpochJoin(a, [Publish]);
    WithinEpochJoin(a + [Publish], Takes(t.ch));
  }

  /** `load` gets ready and empties the channel, and the late batch reads its length. */
  lemma BeginPushing(s: State) returns (steps: seq<Step>, t: State)
    requires Good(s) && JustStored(s) && Late(s) && s.control.Free?
    ensures WithinEpoch(steps) && Path(s, steps, t) && Good(t)
    ensures t.producer.Pushing? && HasStaleBatch(t) && t.load.Receiving?
    ensures t.producer.now < t.clock == s.clock && t.ticking == s.ticking
    ensures t.limit == s.limit && t.epoch == s.epoch && t.book.start == s.clock
  {
    hide Path, WithinEpoch, Good;
    var r := Readied(s);
    LoadGetsReady(s);
    LoadTakesAll(r);
    var u := Emptied(r);
    steps := LoadReady(s) + Takes(r.ch);
    PathJoin(s, LoadReady(s), r, Takes(r.ch), u);
    WithinEpochJoin(LoadReady(s), Takes(r.ch));
    t := u;
    if s.producer.Counting? {
      PathSnoc(s, steps, u, Measure);
      SingleStaysInEpoch(Measure);
      WithinEpochJoin(steps, [Measure]);
      steps := steps + [Measure];
      t := Measured(u);
    }
    PathKeepsGood(s, steps, t);
  }

  lemma FinishLate(s: State) returns (steps: seq<Step>, t: State)
    requires Good(s) && JustStored(s) && Late(s) && s.control.Free?
    ensures WithinEpoch(steps) && Path(s, steps, t) && Good(t) && Overdue(s, t)
  {
    hide Path, WithinEpoch;
    var a, u := BeginPushing(s);
    var b := FinishPushing(u);
    t := Emptied(Published(Filled(u)));
    steps := a + b;
    PathJoin(s, a, u, b, t);
    WithinEpochJoin(a, b);
    PathKeepsGood(s, steps, t);
    assert s.ticking;
  }

  lemma EarnedPositive(since: real, until: real, rate: real)
    requires since < until && rate > 0.0
    ensures Earned(since, until, rate) > 0.0
  {
    assert (until - since) * rate > 0.0;
  }

  /** A time after `clock` at which a producer with an empty channel computes a whole number of tokens. */
  lemma WholeTokens(since: real, clock: real, rate: real, surplus: real) returns (n: nat, at: real)
    requires since < clock && rate > 0.0 && 0.0 <= surplus < 1.0
    ensures n > 0 && at > clock && Earned(since, at, rate) + surplus == n as real
    ensures Earned(since, at, rate) > Earned(clock, at, rate)
  {
    EarnedNonNeg(since, clock, rate);
    n := (Earned(since, clock, rate) + surplus).Floor + 1;
    at := since + (n as real - surplus) / rate;
    assert Earned(since, at, rate) == n as real - surplus;
    if at <= clock {
      MulMono(at - since, clock - since, rate);
      assert false;
    }
    EarnedPositive(since, clock, rate);
    EarnedSplits(since, clock, at, rate);
  }

  lemma Overtakes(s0: State, t: State) returns (steps: seq<Step>)
    requires Good(t) && Overdue(s0, t) && t.limit > 0.0
    ensures WithinEpoch(steps) && Feasible(t, steps) && !RateHolds(Exec(t, steps))
  {
    hide Earned, Feasible, Exec, Path, WithinEpoch;
    var n, at := WholeTokens(t.lastEvent, t.clock, t.limit, t.surplus);
    var dt := at - t.clock;
    PathOne(t, Elapse(dt));
    var u := t.(clock := at);
    assert Next(t, Elapse(dt)) == u;
    TickComputes(u);
    var c := Computed(u);
    PathJoin(t, [Elapse(dt)], u, TickSteps(u), c);
    var m := Measured(c);
    assert m.producer == Pushing(at, n, t.epoch);
    PathSnoc(t, [Elapse(dt)] + TickSteps(u), c, Measure);
    PushesFill(m);
    PathJoin(t, [Elapse(dt)] + TickSteps(u) + [Measure], m, PushSteps(m.ch, n), Filled(m));
    steps := [Elapse(dt)] + TickSteps(u) + [Measure] + PushSteps(m.ch, n);
    SingleStaysInEpoch(Elapse(dt));
    SingleStaysInEpoch(Measure);
    PushStepsStayInEpoch(m.ch, n);
    WithinEpochJoin([Elapse(dt)], TickSteps(u));
    WithinEpochJoin([Elapse(dt)] + TickSteps(u), [Measure]);
    WithinEpochJoin([Elapse(dt)] + TickSteps(u) + [Measure], PushSteps(m.ch, n));
    assert Path(t, steps, Filled(m));
    PathEnds(t, steps, Filled(m));
  }

  lemma NewLimitIsPositive(s: State)
    requires Good(s) && CanStep(s, StoreNew)
    ensures Next(s, StoreNew).limit > 0.0 && Next(s, StoreNew).control.Free?
  {
  }

  lemma LateBreaksRate(s: State)
    requires Good(s) && CanStep(s, StoreNew) && Late(Next(s, StoreNew))
    ensures !RateKept(Next(s, StoreNew))
  {
    hide Good, Feasible, Exec, Path, WithinEpoch, RateHolds, Late, JustStored;
    var s0 := Next(s, StoreNew);
    SetLimitOpensEpoch(s, StoreNew);
    NewLimitIsPositive(s);
    var a, t := FinishLate(s0);
    var b := Overtakes(s0, t);
    PathJoinsExec(t, b);
    PathJoin(s0, a, t, b, Exec(t, b));
    WithinEpochJoin(a, b);
    PathEnds(s0, a + b, Exec(t, b));
  }

  /**
   From the state in which SetLimit returns, the new rate is kept in every continuation of the epoch if and only if the
   producer is not working on a batch whose clock reading is older.
   */
  lemma RateKeptIff(s: State)
    requires Good(s) && CanStep(s, StoreNew)
    ensures RateKept(Next(s, StoreNew)) <==> !Late(Next(s, StoreNew))
  {
    hide Good, RateKept, Late;
    if Late(Next(s, StoreNew)) {
      LateBreaksRate(s);
    } else {
      PunctualKeepsRate(s);
    }
  }

  /** SetLimit, called in s, can return in a state from which the new rate can be exceeded. */
  ghost predicate CanExceedRate(s: State) {
    exists pre :: ReturnsBy(s, pre) && !RateKept(After(s, pre))
  }

  lemma SingleIsBeforeStore(e: Step)
    requires !e.StoreNew?
    ensures BeforeStore([e])
  {
  }

  lemma CommittedIsLate(t: State)
    requires Good(t) && t.control.Zeroing? && Committed(t) > 0
    ensures Late(Next(Drained(Next(t, Elapse(1.0))), StoreNew))
  {
  }

  lemma RateCanBeExceeded(s: State)
    requires Good(s) && s.control.Zeroing? && s.limit > 0.0
    ensures CanExceedRate(s)
  {
    hide Good, Feasible, Exec, Committed, BeforeStore, RateKept;
    var a := BatchBeforeStore(s);
    var t := Exec(s, a);
    PathJoinsExec(s, a);
    PathSnoc(s, a, t, Elapse(1.0));
    StepKeepsGood(t, Elapse(1.0));
    var w := Next(t, Elapse(1.0));
    DrainsUndisturbed(w);
    var b, u := ToRestoring(w), Drained(w);
    PathJoin(s, a + [Elapse(1.0)], w, b, u);
    var pre := a + [Elapse(1.0)] + b;
    PathKeepsGood(s, pre, u);
    PathSnoc(s, pre, u, StoreNew);
    PathEnds(s, pre + [StoreNew], Next(u, StoreNew));
    CommittedIsLate(t);
    LateBreaksRate(u);
    EpochIsBeforeStore(a);
    SingleIsBeforeStore(Elapse(1.0));
    BeforeStoreJoin(a, [Elapse(1.0)]);
    BeforeStoreJoin(a + [Elapse(1.0)], b);
    assert ReturnsBy(s, pre) && After(s, pre) == Next(u, StoreNew);
  }

  lemma {:induction false} LastStep(s: State, steps: seq<Step>, e: Step)
    requires Feasible(s, steps + [e])
    ensures Feasible(s, steps) && CanStep(Exec(s, steps), e)
    ensures Exec(s, steps + [e]) == Next(Exec(s, steps), e)
    decreases |steps|
  {
    hide CanStep, Next;
    if steps == [] {
      assert (steps + [e])[1..] == [];
    } else {
      assert (steps + [e])[1..] == steps[1..] + [e];
      LastStep(Next(s, steps[0]), steps[1..], e);
    }
  }

  /**
   A call of SetLimit guarantees that the new rate is kept if and only if the limit in force at the call is 0: a
   caller can tell by reading Limit.
   */
  lemma SetLimitMayExceedRateIff(s: State)
    requires Good(s) && s.control.Zeroing?
    ensures CanExceedRate(s) <==> s.limit > 0.0
  {
    hide RateKept;
    if s.limit > 0.0 {
      RateCanBeExceeded(s);
    } else {
      assert FirstSetLimit(s);
      forall pre | ReturnsBy(s, pre) ensures RateKept(After(s, pre)) {
        FirstSetLimitReturns(s, pre);
        LastStep(s, pre, StoreNew);
        RunKeepsGood(s, pre);
        RateKeptIff(Exec(s, pre));
      }
    }
  }

  // ---------------------------------------------------------------------------------------------
  // Whole runs

  ghost function Worth(s: State, e: Step): real {
    if e.Elapse? then Earned(s.clock, s.clock + e.dt, s.limit) else 0.0
  }

  /** The integral of the limit over a run. */
  ghost function Integral(s: State, steps: seq<Step>): real
    requires Feasible(s, steps)
    decreases |steps|
  {
    if steps == [] then 0.0
    else Worth(s, steps[0]) + Integral(Next(s, steps[0]), steps[1..])
  }

  ghost function Refund(s: State, e: Step): real {
    if e.Publish? && HasStaleBatch(s) && s.producer.Pushing? then Earned(s.producer.now, s.book.start, s.limit)
    else 0.0
  }

  /** What late batches get paid twice: each limit * (start - now) of the epoch in which it ends. */
  ghost function LateCredit(s: State, steps: seq<Step>): real
    requires Feasible(s, steps)
    decreases |steps|
  {
    if steps == [] then 0.0
    else Refund(s, steps[0]) + LateCredit(Next(s, steps[0]), steps[1..])
  }

  /** Tokens the producer still has credit for. */
  ghost function Owed(s: State): real {
    match s.producer
    case Pushing(now, left, born) =>
      left as real + s.surplus + Earned(if born == s.epoch then now else s.lastEvent, s.clock, s.limit)
    case Counting(_, tokens, born) =>
      (if born == s.epoch then s.surplus else Max(tokens, s.surplus)) + Earned(s.lastEvent, s.clock, s.limit)
    case _ =>
      s.surplus + Earned(s.lastEvent, s.clock, s.limit)
  }

  lemma OwedNonNeg(s: State)
    requires Good(s)
    ensures Owed(s) >= 0.0
  {
    hide Earned;
    EarnedNonNeg(s.lastEvent, s.clock, s.limit);
    if s.producer.Pushing? {
      EarnedNonNeg(s.producer.now, s.clock, s.limit);
    }
  }

  /** Opening an epoch gives up credit, but never creates any. */
  lemma StorePays(s: State, n: real)
    requires Good(s) && n >= 0.0
    ensures Owed(Stored(s, n)) <= Owed(s)
  {
    hide Earned;
    EarnedNothing(s.clock, n);
    EarnedNonNeg(s.lastEvent, s.clock, s.limit);
    match s.producer {
      case Pushing(now, _, _) => EarnedNonNeg(now, s.clock, s.limit);
      case Counting(now, _, _) =>
        EarnedSplits(s.lastEvent, now, s.clock, s.limit);
        EarnedNonNeg(now, s.clock, s.limit);
      case _ =>
    }
  }

  lemma ElapsePays(s: State, dt: real)
    requires Good(s) && dt >= 0.0
    ensures Owed(Next(s, Elapse(dt))) == Owed(s) + Worth(s, Elapse(dt))
  {
    hide Earned;
    EarnedSplits(s.lastEvent, s.clock, s.clock + dt, s.limit);
    if s.producer.Pushing? {
      EarnedSplits(s.producer.now, s.clock, s.clock + dt, s.limit);
    }
  }

  lemma MeasurePays(s: State)
    requires Good(s) && s.producer.Counting?
    ensures Owed(Measured(s)) <= Owed(s)
  {
    hide Earned;
    EarnedSplits(s.lastEvent, s.producer.now, s.clock, s.limit);
  }

  lemma PublishPays(s: State)
    requires Good(s) && CanStep(s, Publish)
    ensures Owed(Next(s, Publish)) == Owed(s) + Refund(s, Publish)
  {
    hide Earned;
    EarnedSplits(s.producer.now, s.lastEvent, s.clock, s.limit);
  }

  lemma StepPays(s: State, e: Step)
    requires Good(s) && CanStep(s, e)
    ensures (if e.Push? then 1.0 else 0.0) + Owed(Next(s, e)) <= Owed(s) + Worth(s, e) + Refund(s, e)
  {
    hide Earned;
    match e {
      case Elapse(dt) => ElapsePays(s, dt);
      case Measure => MeasurePays(s);
      case Publish => PublishPays(s);
      case StoreZero => StorePays(s, 0.0);
      case StoreNew => StorePays(s, s.control.n);
      case _ =>
    }
  }

  lemma {:induction false} RunPays(s: State, steps: seq<Step>)
    requires Good(s) && Feasible(s, steps)
    ensures Pushes(steps) as real + Owed(Exec(s, steps))
         <= Owed(s) + Integral(s, steps) + LateCredit(s, steps)
    decreases |steps|
  {
    hide Good, CanStep, Next, Owed, Worth, Refund;
    if steps != [] {
      StepKeepsGood(s, steps[0]);
      StepPays(s, steps[0]);
      RunPays(Next(s, steps[0]), steps[1..]);
    }
  }

  lemma NothingOwedAtFirst(start: real)
    ensures Owed(Opening(start)) == 0.0
  {
  }

  /**
   In every interleaving of producer, SetLimit calls, Stop and load, all tokens ever pushed are at most the integral
   of the limit plus what late batches get paid twice; the surplus carried from epoch to epoch adds nothing.
   */
  lemma WholeRunBound(start: real, steps: seq<Step>)
    requires start >= 0.0 && Feasible(Opening(start), steps)
    ensures Pushes(steps) as real <= Integral(Opening(start), steps) + LateCredit(Opening(start), steps)
  {
    hide Feasible, Exec, Pushes, Integral, LateCredit, Owed, Good;
    OpeningIsGood(start);
    RunPays(Opening(start), steps);
    RunKeepsGood(Opening(start), steps);
    OwedNonNeg(Exec(Opening(start), steps));
    NothingOwedAtFirst(start);
  }

  // ---------------------------------------------------------------------------------------------
  // One run, step by step

  /** The state of the witness below with the fields that vary. */
  ghost function At(clock: real, tick: bool, ch: nat, limit: real, lastEvent: real, producer: Producer,
                    control: Control, epoch: nat, book: Book): State
  {
    State(clock, true, tick, ch, limit, lastEvent, 0.0, producer, control, Returned, false, 0, epoch, book)
  }

  /** SetLimit(1) at time 0 from a fresh limiter, and a tick at time 1 whose batch is computed but not begun. */
  lemma BatchComputed() returns (steps: seq<Step>)
    ensures Path(Opening(0.0), steps, At(1.0, false, 0, 1.0, 0.0, Counting(1.0, 1.0, 2), Free, 2,
                            Book(0.0, 0.0, 0.0, 0, 0, 0, 0)))
  {
    var s0 := Opening(0.0);
    var b := Book(0.0, 0.0, 0.0, 0, 0, 0, 0);
    hide Feasible, Exec, Path;
    PathNone(s0);
    PathSnoc(Opening(0.0), [], s0, CallSetLimit(1.0));
    steps := [] + [CallSetLimit(1.0)];
    var s1 := s0.(control := Zeroing(1.0));
    PathSnoc(Opening(0.0), steps, s1, StoreZero);
    steps := steps + [StoreZero];
    var s2 := s1.(control := Draining(1.0), epoch := 1, book := b);
    PathSnoc(Opening(0.0), steps, s2, DrainDone);
    steps := steps + [DrainDone];
    var s3 := s2.(control := Restoring(1.0));
    PathSnoc(Opening(0.0), steps, s3, StoreNew);
    steps := steps + [StoreNew];
    var s4 := At(0.0, false, 0, 1.0, 0.0, Selecting, Free, 2, b);
    PathSnoc(Opening(0.0), steps, s4, Elapse(1.0));
    steps := steps + [Elapse(1.0)];
    var s5 := s4.(clock := 1.0);
    PathSnoc(Opening(0.0), steps, s5, Fire);
    steps := steps + [Fire];
    var s6 := s5.(tick := true);
    PathSnoc(Opening(0.0), steps, s6, TakeTick);
    steps := steps + [TakeTick];
    var s7 := s5.(producer := Woken);
    PathSnoc(Opening(0.0), steps, s7, ReadClock);
    steps := steps + [ReadClock];
    var s8 := s5.(producer := Locking(1.0));
    PathSnoc(Opening(0.0), steps, s8, Compute);
    steps := steps + [Compute];
  }

  /** SetLimit(1) at time 3 drains the empty channel before that batch is measured. */
  lemma DrainOvertakesBatch() returns (steps: seq<Step>)
    ensures Path(Opening(0.0), steps, At(3.0, false, 0, 0.0, 3.0, Counting(1.0, 1.0, 2), Restoring(1.0), 3,
                                         Book(3.0, 0.0, 3.0, 0, 0, 0, 0)))
  {
    hide Feasible, Exec, Path;
    steps := BatchComputed();
    var s0 := At(1.0, false, 0, 1.0, 0.0, Counting(1.0, 1.0, 2), Free, 2, Book(0.0, 0.0, 0.0, 0, 0, 0, 0));
    PathSnoc(Opening(0.0), steps, s0, Elapse(2.0));
    steps := steps + [Elapse(2.0)];
    var s1 := s0.(clock := 3.0);
    PathSnoc(Opening(0.0), steps, s1, CallSetLimit(1.0));
    steps := steps + [CallSetLimit(1.0)];
    var s2 := s1.(control := Zeroing(1.0));
    PathSnoc(Opening(0.0), steps, s2, StoreZero);
    steps := steps + [StoreZero];
    var b := Book(3.0, 0.0, 3.0, 0, 0, 0, 0);
    var s3 := s2.(control := Draining(1.0), limit := 0.0, lastEvent := 3.0, epoch := 3, book := b);
    PathSnoc(Opening(0.0), steps, s3, DrainDone);
    steps := steps + [DrainDone];
  }

  /** The state while SetLimit(1) is about to store the new limit. */
  ghost function Overtaken(ch: nat, producer: Producer, stale: nat, pushed: nat): State {
    At(3.0, false, ch, 0.0, 3.0, producer, Restoring(1.0), 3, Book(3.0, 0.0, 3.0, stale, 0, pushed, 0))
  }

  lemma BatchMoves()
    ensures var s := Overtaken(0, Counting(1.0, 1.0, 2), 0, 0);
      CanStep(s, Measure) && Next(s, Measure) == Overtaken(0, Pushing(1.0, 1, 2), 1, 0)
    ensures var s := Overtaken(0, Pushing(1.0, 1, 2), 1, 0);
      CanStep(s, Push) && Next(s, Push) == Overtaken(1, Pushing(1.0, 0, 2), 1, 1)
    ensures var s := Overtaken(1, Pushing(1.0, 0, 2), 1, 1);
      CanStep(s, StoreNew) && Next(s, StoreNew) ==
        At(3.0, false, 1, 1.0, 3.0, Pushing(1.0, 0, 2), Free, 4, Book(3.0, 0.0, 3.0, 0, 0, 0, 0))
  {
  }

  /** The token of that batch enters the channel after the drain: it is not empty when SetLimit returns. */
  lemma SetLimitCanReturnWithTokens() returns (steps: seq<Step>)
    ensures Path(Opening(0.0), steps + [StoreNew],
                 At(3.0, false, 1, 1.0, 3.0, Pushing(1.0, 0, 2), Free, 4, Book(3.0, 0.0, 3.0, 0, 0, 0, 0)))
  {
    hide Feasible, Exec, Path, CanStep, Next, Opening;
    BatchMoves();
    var drained := DrainOvertakesBatch();
    steps := drained + [Measure] + [Push];
    PathSnoc(Opening(0.0), drained, Overtaken(0, Counting(1.0, 1.0, 2), 0, 0), Measure);
    PathSnoc(Opening(0.0), drained + [Measure], Overtaken(0, Pushing(1.0, 1, 2), 1, 0), Push);
    PathSnoc(Opening(0.0), steps, Overtaken(1, Pushing(1.0, 0, 2), 1, 1), StoreNew);
  }

  /**
   The late batch also moves lastEvent back to time 1, and the next batch is paid for time the old limit was
   already paid for: a token is pushed although no time has passed since SetLimit and nothing was carried.
   So `base` in EpochBalance cannot be replaced by the time of SetLimit.
   */
  lemma LateBatchIsPaidTwice() returns (steps: seq<Step>)
    ensures Feasible(Opening(0.0), steps)
    ensures var s := Exec(Opening(0.0), steps);
      && s.producer.Selecting? && s.control.Free?
      && s.book.pushed as real
           > s.book.stale as real + s.book.carried + (s.clock - s.book.start) * s.limit
  {
    hide Feasible, Exec, Path;
    steps := SetLimitCanReturnWithTokens();
    var b := Book(3.0, 0.0, 3.0, 0, 0, 0, 0);
    var s0 := At(3.0, false, 1, 1.0, 3.0, Pushing(1.0, 0, 2), Free, 4, b);
    steps := steps + [StoreNew];
    PathSnoc(Opening(0.0), steps, s0, Publish);
    steps := steps + [Publish];
    var c := b.(base := 1.0, staleBatches := 1);
    var s1 := s0.(producer := Selecting, lastEvent := 1.0, book := c);
    PathSnoc(Opening(0.0), steps, s1, Fire);
    steps := steps + [Fire];
    var s2 := s1.(tick := true);
    PathSnoc(Opening(0.0), steps, s2, TakeTick);
    steps := steps + [TakeTick];
    var s3 := s1.(producer := Woken);
    PathSnoc(Opening(0.0), steps, s3, ReadClock);
    steps := steps + [ReadClock];
    var s4 := s1.(producer := Locking(3.0));
    PathSnoc(Opening(0.0), steps, s4, Compute);
    steps := steps + [Compute];
    var s5 := s1.(producer := Counting(3.0, 2.0, 4));
    PathSnoc(Opening(0.0), steps, s5, Measure);
    steps := steps + [Measure];
    var s6 := s1.(producer := Pushing(3.0, 1, 4), book := c.(forfeited := 1));
    PathSnoc(Opening(0.0), steps, s6, Push);
    steps := steps + [Push];
    var s7 := s1.(ch := 2, producer := Pushing(3.0, 0, 4), book := c.(forfeited := 1, pushed := 1));
    PathSnoc(Opening(0.0), steps, s7, Publish);
    steps := steps + [Publish];
    PathEnds(Opening(0.0), steps, Next(s7, Publish));
  }
}
