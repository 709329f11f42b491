/** SetLimit and Stop against a concurrent producer: SetLimit returns, Stop returns and is final. */
module LimiterControl {
  import opened Numbers
  import opened RateLimiter
  import opened LimiterProtocol
  import opened LimiterRuns

  // ---------------------------------------------------------------------------------------------
  // The drain inside SetLimit

  /** Tokens the producer can still push without computing a new batch. */
  ghost function Committed(s: State): nat {
    match s.producer
    case Counting(_, tokens, _) => if Trunc(tokens) > 0 then Trunc(tokens) else 0
    case Pushing(_, left, _) => left
    case _ => 0
  }

  ghost predicate DuringDrain(steps: seq<Step>) {
    forall i :: 0 <= i < |steps| ==> !steps[i].DrainDone?
  }

  ghost predicate Receives(e: Step) {
    e.DrainOne? || e.LoadTake?
  }

  ghost function Receipts(steps: seq<Step>): nat {
    if steps == [] then 0 else (if Receives(steps[0]) then 1 else 0) + Receipts(steps[1..])
  }

  /** With limit 0 and less than one token of surplus no batch can begin. */
  lemma NoBatchAtZero(s: State)
    requires Good(s) && s.limit == 0.0 && CanStep(s, Compute)
    ensures Committed(Next(s, Compute)) == 0
  {
  }

  lemma DrainStep(s: State, e: Step)
    requires Good(s) && (s.control.Draining? || s.control.Restoring?)
    requires CanStep(s, e) && !e.DrainDone? && !e.StoreNew?
    ensures var t := Next(s, e);
      && t.control == s.control
      && Committed(t) + (if e.Push? then 1 else 0) <= Committed(s)
      && t.ch == s.ch + (if e.Push? then 1 else 0) - (if Receives(e) then 1 else 0)
  {
    hide Earned;
    if e == Compute {
      NoBatchAtZero(s);
    }
  }

  /**
   While SetLimit drains, every push and every receive lowers 2 * Committed + len(ch), so there are at most
   that many; the producer cannot start a new batch, and the drain takes at most len(ch) + Committed tokens.
   */
  lemma {:induction false} DrainTerminates(s: State, steps: seq<Step>)
    requires Good(s) && s.control.Draining? && Feasible(s, steps) && DuringDrain(steps)
    ensures Exec(s, steps).control == s.control
    ensures Committed(Exec(s, steps)) + Pushes(steps) <= Committed(s)
    ensures Exec(s, steps).ch == s.ch + Pushes(steps) - Receipts(steps)
    ensures Pushes(steps) + Receipts(steps) <= 2 * Committed(s) + s.ch
    ensures Receipts(steps) <= s.ch + Committed(s)
    decreases |steps|
  {
    hide Good, Next, Committed;
    if steps != [] {
      assert !steps[0].DrainDone?;
      StepKeepsGood(s, steps[0]);
      DrainStep(s, steps[0]);
      assert DuringDrain(steps[1..]);
      DrainTerminates(Next(s, steps[0]), steps[1..]);
    }
  }

  // ---------------------------------------------------------------------------------------------
  // SetLimit returns

  ghost predicate InSetLimit(s: State) {
    s.control.Zeroing? || s.control.Draining? || s.control.Restoring?
  }

  /** The steps of the goroutine that called SetLimit. */
  ghost predicate Controls(e: Step) {
    e.StoreZero? || e.DrainOne? || e.DrainDone? || e.StoreNew?
  }

  ghost predicate ControlCanMove(s: State) {
    CanStep(s, StoreZero) || CanStep(s, DrainOne) || CanStep(s, DrainDone) || CanStep(s, StoreNew)
  }

  /** SetLimit is never blocked: its drain can always receive or end. */
  lemma SetLimitCanMove(s: State)
    requires InSetLimit(s)
    ensures ControlCanMove(s)
  {
  }

  ghost function SetLimitPhase(s: State): nat {
    match s.control
    case Zeroing(_) => 3
    case Draining(_) => 2
    case Restoring(_) => 1
    case _ => 0
  }

  ghost function DrainWork(s: State): nat {
    if s.control.Draining? then 2 * Committed(s) + s.ch else 0
  }

  lemma OthersKeepSetLimit(s: State, e: Step)
    requires Good(s) && InSetLimit(s) && CanStep(s, e) && !Controls(e)
    ensures Next(s, e).control == s.control && DrainWork(Next(s, e)) <= DrainWork(s)
  {
    hide Committed, Good;
    if !s.control.Zeroing? {
      DrainStep(s, e);
    }
  }

  lemma ControlAdvances(s: State, e: Step)
    requires Good(s) && InSetLimit(s) && CanStep(s, e) && Controls(e)
    ensures var t := Next(s, e);
      || t.control.Free?
      || (InSetLimit(t) && SetLimitPhase(t) < SetLimitPhase(s))
      || (InSetLimit(t) && SetLimitPhase(t) == SetLimitPhase(s) && DrainWork(t) < DrainWork(s))
  {
  }

  /** An infinite run of the system. */
  ghost predicate Running(run: nat -> State, moves: nat -> Step) {
    forall k: nat :: CanStep(run(k), moves(k)) && run(k + 1) == Next(run(k), moves(k))
  }

  /** From k on, the controlling goroutine gets its turn at j: it moves, or cannot. */
  ghost predicate Turn(run: nat -> State, moves: nat -> Step, k: nat, j: nat) {
    k <= j && (Controls(moves(j)) || !ControlCanMove(run(j)))
  }

  ghost predicate HasTurn(run: nat -> State, moves: nat -> Step, k: nat) {
    exists j :: Turn(run, moves, k, j)
  }

  /** Weak fairness for the controlling goroutine. */
  ghost predicate ControlIsFair(run: nat -> State, moves: nat -> Step) {
    forall k :: HasTurn(run, moves, k)
  }

  lemma {:induction false} ReachControl(run: nat -> State, moves: nat -> Step, i: nat, j: nat) returns (f: nat)
    requires Running(run, moves) && i <= j && Good(run(i)) && InSetLimit(run(i))
    requires Controls(moves(j)) || !ControlCanMove(run(j))
    ensures i <= f && Controls(moves(f)) && Good(run(f))
    ensures run(f).control == run(i).control && DrainWork(run(f)) <= DrainWork(run(i))
    decreases j - i
  {
    hide Good, CanStep, Next, DrainWork;
    if Controls(moves(i)) {
      f := i;
    } else {
      SetLimitCanMove(run(i));
      assert CanStep(run(i), moves(i)) && run(i + 1) == Next(run(i), moves(i));
      StepKeepsGood(run(i), moves(i));
      OthersKeepSetLimit(run(i), moves(i));
      f := ReachControl(run, moves, i + 1, j);
    }
  }

  /** However producer, load and ticker interleave with it, a fairly scheduled SetLimit returns. */
  lemma {:induction false} SetLimitReturns(run: nat -> State, moves: nat -> Step, i: nat) returns (k: nat)
    requires Running(run, moves) && ControlIsFair(run, moves)
    requires Good(run(i)) && InSetLimit(run(i))
    ensures k > i && run(k).control.Free?
    decreases SetLimitPhase(run(i)), DrainWork(run(i))
  {
    hide Good, CanStep, Next, DrainWork, ControlCanMove;
    assert HasTurn(run, moves, i);
    var j :| Turn(run, moves, i, j);
    var f := ReachControl(run, moves, i, j);
    assert CanStep(run(f), moves(f)) && run(f + 1) == Next(run(f), moves(f));
    StepKeepsGood(run(f), moves(f));
    ControlAdvances(run(f), moves(f));
    if run(f + 1).control.Free? {
      k := f + 1;
    } else {
      k := SetLimitReturns(run, moves, f + 1);
    }
  }

  // ---------------------------------------------------------------------------------------------
  // Stop is final

  /** Jobs `load` has sent, counting the one it holds. */
  ghost function JobsCommitted(s: State): nat {
    s.jobs + if s.load.Sending? then 1 else 0
  }

  /** After Stop has returned the channel stays empty and `load` sends at most the job it already holds. */
  lemma {:induction false} StopIsFinal(s: State, steps: seq<Step>)
    requires Good(s) && s.control.Stopped? && Feasible(s, steps)
    ensures var t := Exec(s, steps);
      && t.control.Stopped? && t.producer.Exited? && t.ch == 0
      && JobsCommitted(t) == JobsCommitted(s)
      && s.jobs <= t.jobs <= s.jobs + 1
    decreases |steps|
  {
    hide Earned, Measured, Stored, Published;
    if steps != [] {
      StepKeepsGood(s, steps[0]);
      StopIsFinal(Next(s, steps[0]), steps[1..]);
    }
  }

  // ---------------------------------------------------------------------------------------------
  // Stop finishes

  /** Stop has stopped the ticker but not returned, and `load` keeps consuming. */
  ghost predicate Stopping(s: State) {
    (s.control.Handshaking? || s.control.Clearing?) && !s.load.Returned? && !s.cancelled
  }

  ghost function RankControl(s: State): nat { if s.control.Handshaking? then 1 else 0 }

  ghost function RankTick(s: State): nat { if s.tick then 1 else 0 }

  ghost function RankPhase(s: State): nat {
    match s.producer
    case Woken => 4
    case Locking(_) => 3
    case Counting(_, _, _) => 2
    case Pushing(_, _, _) => 1
    case _ => 0
  }

  ghost function RankLeft(s: State): nat { if s.producer.Pushing? then s.producer.left else 0 }

  ghost function RankTokens(s: State): nat { 2 * s.ch + if s.load.Sending? then 1 else 0 }

  /** Lexicographic descent: control, the one buffered tick, the producer's phase, pushes left, tokens. */
  ghost predicate Below(t: State, s: State) {
    if RankControl(t) != RankControl(s) then RankControl(t) < RankControl(s)
    else if RankTick(t) != RankTick(s) then RankTick(t) < RankTick(s)
    else if RankPhase(t) != RankPhase(s) then RankPhase(t) < RankPhase(s)
    else if RankLeft(t) != RankLeft(s) then RankLeft(t) < RankLeft(s)
    else RankTokens(t) < RankTokens(s)
  }

  lemma StoppingDescends(s: State, e: Step)
    requires Good(s) && Stopping(s) && CanStep(s, e) && !e.Elapse?
    ensures Next(s, e).control.Stopped? || (Stopping(Next(s, e)) && Below(Next(s, e), s))
  {
    hide Earned;
  }

  /** Stop cannot get stuck: some goroutine can always move. */
  lemma StoppingCanMove(s: State)
    requires Good(s) && Stopping(s)
    ensures exists e: Step :: !e.Elapse? && CanStep(s, e)
  {
    if s.control.Clearing? {
      assert CanStep(s, ClearOne) || CanStep(s, ClearDone);
    } else {
      match s.producer {
        case Selecting => assert CanStep(s, Handshake);
        case Woken => assert CanStep(s, ReadClock);
        case Locking(_) => assert CanStep(s, Compute);
        case Counting(_, _, _) => assert CanStep(s, Measure);
        case Pushing(_, left, _) =>
          assert CanStep(s, Publish) || CanStep(s, Push) || CanStep(s, LoadTake) || CanStep(s, LoadSend);
      }
    }
  }

  /** An infinite behaviour in which time does not pass forever while Stop is waiting. */
  ghost predicate Behaviour(run: nat -> State, moves: nat -> Step) {
    && Running(run, moves)
    && (forall k: nat :: Stopping(run(k)) ==> exists j: nat :: k <= j && !moves(j).Elapse?)
  }

  lemma {:induction false} ElapsingChangesOnlyTheClock(run: nat -> State, moves: nat -> Step, i: nat, j: nat)
    requires Behaviour(run, moves) && i <= j && Good(run(i))
    requires forall k :: i <= k < j ==> moves(k).Elapse?
    ensures run(j) == run(i).(clock := run(j).clock) && Good(run(j))
    decreases j - i
  {
    hide Good;
    if i < j {
      assert CanStep(run(i), moves(i)) && run(i + 1) == Next(run(i), moves(i));
      StepKeepsGood(run(i), moves(i));
      ElapsingChangesOnlyTheClock(run, moves, i + 1, j);
    }
  }

  lemma {:induction false} FirstMove(moves: nat -> Step, i: nat, j: nat) returns (f: nat)
    requires i <= j && !moves(j).Elapse?
    ensures i <= f <= j && !moves(f).Elapse?
    ensures forall k :: i <= k < f ==> moves(k).Elapse?
    decreases j - i
  {
    if moves(i).Elapse? {
      f := FirstMove(moves, i + 1, j);
    } else {
      f := i;
    }
  }

  /** In every behaviour, however the steps interleave, a Stop that `load` keeps feeding returns. */
  lemma {:induction false} StopReturns(run: nat -> State, moves: nat -> Step, i: nat) returns (k: nat)
    requires Behaviour(run, moves) && Good(run(i)) && Stopping(run(i))
    ensures k > i && run(k).control.Stopped?
    decreases RankControl(run(i)), RankTick(run(i)), RankPhase(run(i)), RankLeft(run(i)), RankTokens(run(i))
  {
    hide Good, Next, CanStep;
    var j: nat :| i <= j && !moves(j).Elapse?;
    var f := FirstMove(moves, i, j);
    ElapsingChangesOnlyTheClock(run, moves, i, f);
    assert CanStep(run(f), moves(f)) && run(f + 1) == Next(run(f), moves(f));
    StepKeepsGood(run(f), moves(f));
    StoppingDescends(run(f), moves(f));
    if run(f + 1).control.Stopped? {
      k := f + 1;
    } else {
      assert Below(run(f + 1), run(f));
      k := StopReturns(run, moves, f + 1);
    }
  }

  // ---------------------------------------------------------------------------------------------
  // The load loop and its context

  ghost predicate Cancels(steps: seq<Step>) {
    exists k :: 0 <= k < |steps| && steps[k].Cancel?
  }

  ghost predicate SameLoop(steps: seq<Step>) {
    forall k :: 0 <= k < |steps| ==> !steps[k].LoadStart?
  }

  lemma StepCancels(s: State, e: Step)
    requires CanStep(s, e) && !e.LoadStart?
    ensures Next(s, e).cancelled <==> s.cancelled || e.Cancel?
  {
    hide Earned, Trunc;
  }

  lemma {:induction false} RunCancels(s: State, steps: seq<Step>)
    requires Feasible(s, steps) && SameLoop(steps)
    ensures Exec(s, steps).cancelled <==> s.cancelled || Cancels(steps)
    decreases |steps|
  {
    hide CanStep, Next;
    if steps != [] {
      assert !steps[0].LoadStart?;
      assert SameLoop(steps[1..]);
      StepCancels(s, steps[0]);
      RunCancels(Next(s, steps[0]), steps[1..]);
      assert forall k :: 1 <= k < |steps| ==> steps[k] == steps[1..][k - 1];
      assert forall k :: 0 <= k < |steps| - 1 ==> steps[1..][k] == steps[k + 1];
    }
  }

  /** From its start on, in every interleaving, a load loop can return at its receive iff its context was cancelled. */
  lemma LoadReturnsIff(s: State, steps: seq<Step>)
    requires CanStep(s, LoadStart) && Feasible(Next(s, LoadStart), steps) && SameLoop(steps)
    ensures var t := Exec(Next(s, LoadStart), steps);
      CanStep(t, LoadReturn) <==> t.load.Receiving? && Cancels(steps)
  {
    RunCancels(Next(s, LoadStart), steps);
  }

  // ---------------------------------------------------------------------------------------------
  // Ticks

  ghost function Ticks(steps: seq<Step>): nat {
    if steps == [] then 0 else (if steps[0].Fire? then 1 else 0) + Ticks(steps[1..])
  }

  ghost function Passes(steps: seq<Step>): nat {
    if steps == [] then 0 else (if steps[0].TakeTick? then 1 else 0) + Passes(steps[1..])
  }

  lemma StepMovesTick(s: State, e: Step)
    requires CanStep(s, e)
    ensures (if Next(s, e).tick then 1 else 0) + (if e.TakeTick? then 1 else 0)
         == (if s.tick then 1 else 0) + if e.Fire? then 1 else 0
  {
    hide Earned, Trunc;
  }

  /** In every interleaving each tick is worth one pass of the producer, and at most one tick is waiting. */
  lemma {:induction false} TicksArePasses(s: State, steps: seq<Step>)
    requires Feasible(s, steps)
    ensures Passes(steps) + (if Exec(s, steps).tick then 1 else 0) == Ticks(steps) + if s.tick then 1 else 0
    decreases |steps|
  {
    hide CanStep, Next;
    if steps != [] {
      StepMovesTick(s, steps[0]);
      TicksArePasses(Next(s, steps[0]), steps[1..]);
    }
  }
}
