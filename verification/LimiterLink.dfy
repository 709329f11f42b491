/**
 The limiter with atomic ticks is the protocol without interference: a pass of the producer, a SetLimit and a receive
 that nobody disturbs are one event each, and every run of events is a run of the protocol.
 */
module LimiterLink {
  import opened Numbers
  import opened RateLimiter
  import opened LimiterProtocol
  import opened LimiterRuns
  import opened LimiterLate

  /** The account agrees with a state on everything the producer uses. */
  ghost predicate Represents(a: Account, s: State) {
    a.limit == s.limit && a.lastEvent == s.lastEvent && a.surplus == s.surplus && a.ch == s.ch
  }

  /** The tokens `load` has taken: the jobs it has sent and the one it holds. */
  ghost function Handed(s: State): nat {
    s.jobs + if s.load.Sending? then 1 else 0
  }

  lemma {:induction false} PushesJoin(a: seq<Step>, b: seq<Step>)
    ensures Pushes(a + b) == Pushes(a) + Pushes(b)
    decreases |a|
  {
    if a == [] {
      assert a + b == b;
    } else {
      assert (a + b)[1..] == a[1..] + b;
      PushesJoin(a[1..], b);
    }
  }

  lemma PushesOne(e: Step)
    ensures Pushes([e]) == if e.Push? then 1 else 0
  {
    assert [e][1..] == [];
  }

  lemma {:induction false} NoPushes(steps: seq<Step>)
    requires forall i :: 0 <= i < |steps| ==> !steps[i].Push?
    ensures Pushes(steps) == 0
    decreases |steps|
  {
    if steps != [] {
      assert !steps[0].Push?;
      NoPushes(steps[1..]);
    }
  }

  // ---------------------------------------------------------------------------------------------
  // A tick

  ghost function LevelNow(s: State): int {
    Trunc(Earned(s.lastEvent, s.clock, s.limit) + s.surplus)
  }

  /** If the batch will not fit, `load` gets ready to make room. */
  ghost function RoomSteps(s: State): seq<Step> {
    if LevelNow(s) <= BUFFER_SIZE then [] else LoadReady(s)
  }

  ghost function Roomy(s: State): State {
    if LevelNow(s) <= BUFFER_SIZE then s else Readied(s)
  }

  lemma RoomIsMade(s: State)
    requires s.load.Returned? && LevelNow(s) > BUFFER_SIZE ==> s.control.Free?
    ensures Path(s, RoomSteps(s), Roomy(s)) && Pushes(RoomSteps(s)) == 0
    ensures var r := Roomy(s);
      r == s.(load := r.load, jobs := r.jobs, cancelled := r.cancelled) && Handed(r) == Handed(s)
    ensures Roomy(s).load.Receiving? || LevelNow(s) <= BUFFER_SIZE
  {
    hide Path, Earned;
    PathNone(s);
    if LevelNow(s) > BUFFER_SIZE {
      LoadGetsReady(s);
    }
    NoPushes(RoomSteps(s));
  }

  /** One pass through the loop that reads the clock now; `load` moves only when a push needs room. */
  ghost function Pass(s: State): seq<Step> {
    var n := LevelNow(s) - s.ch;
    TickSteps(s) + [Measure] + if n <= 0 then [] else PushSteps(s.ch, n) + [Publish]
  }

  /** The state in which a pass that reads the clock now ends. */
  ghost function Passed(s: State): State {
    var m := Measured(Computed(s));
    if m.producer.Pushing? then Published(Filled(m)) else m
  }

  lemma PassReaches(s: State)
    requires Good(s) && s.producer.Selecting? && (s.tick || s.ticking)
    requires s.load.Receiving? || LevelNow(s) <= BUFFER_SIZE
    ensures Path(s, Pass(s), Passed(s))
  {
    assert s.ch <= BUFFER_SIZE;
    hide Earned, Good, Feasible, Exec, Path;
    TickComputes(s);
    PathSnoc(s, TickSteps(s), Computed(s), Measure);
    var m := Measured(Computed(s));
    if m.producer.Pushing? {
      PushesFill(m);
      PathSnoc(m, PushSteps(m.ch, m.producer.left), Filled(m), Publish);
      PathJoin(s, TickSteps(s) + [Measure], m, PushSteps(m.ch, m.producer.left) + [Publish], Passed(s));
    } else {
      assert TickSteps(s) + [Measure] + [] == TickSteps(s) + [Measure];
    }
  }

  lemma {:induction false} PushStepsPush(ch: nat, n: nat)
    ensures Pushes(PushSteps(ch, n)) == n
    decreases n
  {
    if n > 0 {
      var full := ch >= BUFFER_SIZE;
      PushStepsPush(if full then ch else ch + 1, n - 1);
      var first := if full then [LoadTake, LoadSend] else [];
      var rest := PushSteps(if full then ch else ch + 1, n - 1);
      assert PushSteps(ch, n) == first + ([Push] + rest);
      NoPushes(first);
      PushesOne(Push);
      PushesJoin([Push], rest);
      PushesJoin(first, [Push] + rest);
    }
  }

  lemma PassPushes(s: State)
    ensures Pushes(Pass(s)) == if LevelNow(s) <= s.ch then 0 else LevelNow(s) - s.ch
  {
    hide LevelNow;
    var n := LevelNow(s) - s.ch;
    NoPushes(TickSteps(s) + [Measure]);
    if n > 0 {
      PushStepsPush(s.ch, n);
      PushesOne(Publish);
      PushesJoin(PushSteps(s.ch, n), [Publish]);
      PushesJoin(TickSteps(s) + [Measure], PushSteps(s.ch, n) + [Publish]);
    } else {
      assert TickSteps(s) + [Measure] + [] == TickSteps(s) + [Measure];
    }
  }

  lemma PassIsTicked(s: State, a: Account)
    requires Good(s) && s.producer.Selecting?
    requires a.Valid() && Represents(a, s) && a.clock <= s.clock
    requires s.load.Receiving? || LevelNow(s) <= BUFFER_SIZE
    ensures var t, b := Passed(s), Ticked(a, s.clock);
      && Represents(b, t)
      && t.producer.Selecting? && t.control == s.control && t.clock == s.clock == b.clock
      && Handed(t) - Handed(s) == b.received - a.received
      && Pushes(Pass(s)) == b.pushed - a.pushed
  {
    hide Earned, Good, Pass, Pushes;
    PassPushes(s);
    EarnedNonNeg(a.lastEvent, s.clock, a.limit);
  }

  /**
   An undisturbed pass, wherever `load` is and whatever the size of the batch: it is feasible and ends in the ticked
   account, and `load` has taken what the account says was received.
   */
  lemma PassIsAtomicTick(s: State, a: Account)
    requires Good(s) && s.producer.Selecting? && (s.tick || s.ticking)
    requires s.load.Returned? && LevelNow(s) > BUFFER_SIZE ==> s.control.Free?
    requires a.Valid() && Represents(a, s) && a.clock <= s.clock
    ensures Feasible(s, RoomSteps(s) + Pass(Roomy(s)))
    ensures var steps := RoomSteps(s) + Pass(Roomy(s));
      var t, b := Exec(s, steps), Ticked(a, s.clock);
      && Represents(b, t)
      && t.producer.Selecting? && t.control == s.control && t.clock == s.clock == b.clock
      && Handed(t) - Handed(s) == b.received - a.received
      && Pushes(steps) == b.pushed - a.pushed
  {
    hide Earned, Good, Path, Feasible, Exec, Pushes, Pass, Passed, RoomSteps, Roomy, Ticked;
    RoomIsMade(s);
    var r := Roomy(s);
    PathKeepsGood(s, RoomSteps(s), r);
    PassReaches(r);
    PassIsTicked(r, a);
    PushesJoin(RoomSteps(s), Pass(r));
    PathJoin(s, RoomSteps(s), r, Pass(r), Passed(r));
    PathEnds(s, RoomSteps(s) + Pass(r), Passed(r));
  }

  // ---------------------------------------------------------------------------------------------
  // A SetLimit

  ghost function SetLimitSteps(s: State, n: real, zeroAt: real, at: real): seq<Step> {
    [CallSetLimit(n), Elapse(zeroAt - s.clock), StoreZero] + DrainSteps(s.ch) + [Elapse(at - zeroAt), StoreNew]
  }

  lemma {:induction false} DrainPushesNothing(n: nat)
    ensures Pushes(DrainSteps(n)) == 0
  {
    if n == 0 {
      PushesOne(DrainDone);
    } else {
      DrainPushesNothing(n - 1);
      PushesOne(DrainOne);
      PushesJoin([DrainOne], DrainSteps(n - 1));
    }
  }

  lemma SetLimitPushesNothing(s: State, n: real, zeroAt: real, at: real)
    ensures Pushes(SetLimitSteps(s, n, zeroAt, at)) == 0
  {
    var first: seq<Step> := [CallSetLimit(n), Elapse(zeroAt - s.clock), StoreZero];
    var last: seq<Step> := [Elapse(at - zeroAt), StoreNew];
    NoPushes(first);
    NoPushes(last);
    DrainPushesNothing(s.ch);
    PushesJoin(first, DrainSteps(s.ch));
    PushesJoin(first + DrainSteps(s.ch), last);
  }

  lemma SetLimitIsAtomic(s: State, a: Account, n: real, zeroAt: real, at: real)
    requires s.control.Free? && s.producer.Selecting? && Represents(a, s) && s.clock <= zeroAt <= at
    ensures Feasible(s, SetLimitSteps(s, n, zeroAt, at))
    ensures var t := Exec(s, SetLimitSteps(s, n, zeroAt, at));
      && Represents(Limited(a, n, zeroAt, at), t)
      && t.producer.Selecting? && t.control.Free? && t.clock == at && Handed(t) == Handed(s)
  {
    hide Path, Feasible, Exec;
    var s1 := Next(s, CallSetLimit(n));
    var s2 := Next(s1, Elapse(zeroAt - s.clock));
    PathOne(s, CallSetLimit(n));
    PathSnoc(s, [CallSetLimit(n)], s1, Elapse(zeroAt - s.clock));
    DrainsUndisturbed(s2);
    var d := Drained(s2);
    var u := Next(d, Elapse(at - zeroAt));
    PathJoin(s, [CallSetLimit(n)] + [Elapse(zeroAt - s.clock)], s2, ToRestoring(s2), d);
    var steps := [CallSetLimit(n)] + [Elapse(zeroAt - s.clock)] + ToRestoring(s2);
    PathSnoc(s, steps, d, Elapse(at - zeroAt));
    PathSnoc(s, steps + [Elapse(at - zeroAt)], u, StoreNew);
    assert steps + [Elapse(at - zeroAt)] + [StoreNew] == SetLimitSteps(s, n, zeroAt, at);
    PathEnds(s, SetLimitSteps(s, n, zeroAt, at), Next(u, StoreNew));
  }

  // ---------------------------------------------------------------------------------------------
  // Runs

  /** Between two events: the producer is at its select, nobody is inside SetLimit, and the account has the time. */
  ghost predicate Mirrors(a: Account, s: State) {
    Good(s) && a.Valid() && Represents(a, s) && s.clock == a.clock && s.producer.Selecting? && s.control.Free?
  }

  /** The steps from s to t push and receive what the ledger says from a to b. */
  ghost predicate Matches(a: Account, b: Account, s: State, steps: seq<Step>, t: State) {
    Pushes(steps) == b.pushed - a.pushed && Handed(t) - Handed(s) == b.received - a.received
  }

  lemma FreeIsTicking(s: State)
    requires Good(s) && s.control.Free?
    ensures s.ticking
  {
  }

  lemma TickIsRun(a: Account, s: State, now: real) returns (steps: seq<Step>, t: State)
    requires Mirrors(a, s) && a.clock <= now
    ensures Path(s, steps, t)
    ensures var b := Ticked(a, now); Mirrors(b, t) && Matches(a, b, s, steps, t)
  {
    hide Path, Feasible, Exec, Ticked, Good, RoomSteps, Roomy, Pass;
    FreeIsTicking(s);
    var e := Elapse(now - s.clock);
    var u := Next(s, e);
    PathOne(s, e);
    StepKeepsGood(s, e);
    PassIsAtomicTick(u, a);
    var pass := RoomSteps(u) + Pass(Roomy(u));
    PathJoinsExec(u, pass);
    steps, t := [e] + pass, Exec(u, pass);
    PushesOne(e);
    PushesJoin([e], pass);
    PathJoin(s, [e], u, pass, t);
    PathKeepsGood(s, steps, t);
  }

  lemma ReceiveIsRun(a: Account, s: State) returns (steps: seq<Step>, t: State)
    requires Mirrors(a, s) && a.ch > 0
    ensures Path(s, steps, t)
    ensures var b := Received(a); Mirrors(b, t) && Matches(a, b, s, steps, t)
  {
    hide Path, Good;
    LoadGetsReady(s);
    var r := Readied(s);
    PathSnoc(s, LoadReady(s), r, LoadTake);
    steps, t := LoadReady(s) + [LoadTake], Next(r, LoadTake);
    PathKeepsGood(s, steps, t);
    NoPushes(steps);
  }

  lemma EventIsRun(a: Account, s: State, e: Event) returns (steps: seq<Step>, t: State)
    requires Mirrors(a, s) && Enabled(a, e)
    ensures Path(s, steps, t)
    ensures var b := Apply(a, e); Mirrors(b, t) && Matches(a, b, s, steps, t)
  {
    hide Path, Feasible, Exec, Good, Ticked;
    match e {
      case Tick(now) => steps, t := TickIsRun(a, s, now);
      case Receive => steps, t := ReceiveIsRun(a, s);
      case SetLimit(n, zeroAt, at) =>
        steps := SetLimitSteps(s, n, zeroAt, at);
        SetLimitPushesNothing(s, n, zeroAt, at);
        SetLimitIsAtomic(s, a, n, zeroAt, at);
        PathJoinsExec(s, steps);
        t := Exec(s, steps);
        PathKeepsGood(s, steps, t);
    }
  }

  /**
   Every run of the atomic limiter is a run of the protocol from any state that mirrors its start: the same limit,
   lastEvent, surplus and channel at the end, with as many pushes, and `load` has taken as many tokens as were
   received.
   */
  lemma {:induction false} RunIsProtocolRun(a: Account, s: State, events: seq<Event>) returns (steps: seq<Step>)
    requires Mirrors(a, s) && Possible(a, events)
    ensures Feasible(s, steps)
    ensures var b, t := Run(a, events), Exec(s, steps);
      Mirrors(b, t) && Matches(a, b, s, steps, t)
    decreases |events|
  {
    hide Path, Apply, Enabled, Good, Represents;
    if events == [] {
      steps := [];
    } else {
      var first, t := EventIsRun(a, s, events[0]);
      var rest := RunIsProtocolRun(Apply(a, events[0]), t, events[1..]);
      PathJoinsExec(t, rest);
      PathJoin(s, first, t, rest, Exec(t, rest));
      steps := first + rest;
      PushesJoin(first, rest);
      PathEnds(s, steps, Exec(t, rest));
    }
  }

  lemma OpeningMirrors(now: real)
    requires now >= 0.0
    ensures Mirrors(Opened(now), Opening(now))
  {
    OpeningIsGood(now);
  }
}
