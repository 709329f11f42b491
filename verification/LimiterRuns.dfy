/** Building runs of the limiter protocol piece by piece. */
module LimiterRuns {
  import opened RateLimiter
  import opened LimiterProtocol

  /** `steps` lead from s to t. */
  ghost predicate Path(s: State, steps: seq<Step>, t: State) {
    Feasible(s, steps) && Exec(s, steps) == t
  }

  lemma PathNone(s: State)
    ensures Path(s, [], s)
  {
  }

  lemma PathOne(s: State, e: Step)
    requires CanStep(s, e)
    ensures Path(s, [e], Next(s, e))
  {
    assert [e][1..] == [];
  }

  lemma PathCons(s: State, e: Step, steps: seq<Step>, t: State)
    requires CanStep(s, e) && Path(Next(s, e), steps, t)
    ensures Path(s, [e] + steps, t)
  {
    assert ([e] + steps)[1..] == steps;
  }

  lemma {:induction false} PathJoin(s: State, a: seq<Step>, t: State, b: seq<Step>, u: State)
    requires Path(s, a, t) && Path(t, b, u)
    ensures Path(s, a + b, u)
    decreases |a|
  {
    hide CanStep, Next;
    if a == [] {
      assert a + b == b;
    } else {
      PathJoin(Next(s, a[0]), a[1..], t, b, u);
      PathCons(s, a[0], a[1..] + b, u);
      assert [a[0]] + (a[1..] + b) == a + b;
    }
  }

  lemma PathSnoc(s: State, a: seq<Step>, t: State, e: Step)
    requires Path(s, a, t) && CanStep(t, e)
    ensures Path(s, a + [e], Next(t, e))
  {
    hide Feasible, Exec, CanStep, Next;
    PathOne(t, e);
    PathJoin(s, a, t, [e], Next(t, e));
  }

  lemma WithinEpochJoin(a: seq<Step>, b: seq<Step>)
    requires WithinEpoch(a) && WithinEpoch(b)
    ensures WithinEpoch(a + b)
  {
  }

  lemma SingleStaysInEpoch(e: Step)
    requires !e.StoreZero? && !e.StoreNew?
    ensures WithinEpoch([e])
  {
  }

  lemma PathEnds(s: State, steps: seq<Step>, t: State)
    requires Path(s, steps, t)
    ensures Feasible(s, steps) && Exec(s, steps) == t
  {
  }

  lemma PathJoinsExec(s: State, steps: seq<Step>)
    requires Feasible(s, steps)
    ensures Path(s, steps, Exec(s, steps))
  {
  }

  lemma PathKeepsGood(s: State, steps: seq<Step>, t: State)
    requires Good(s) && Path(s, steps, t)
    ensures Good(t)
  {
    hide Good;
    RunKeepsGood(s, steps);
  }

  // ---------------------------------------------------------------------------------------------
  // The load loop gets ready and empties the channel

  ghost function LoadReady(s: State): seq<Step> {
    match s.load
    case Receiving => []
    case Sending => [LoadSend]
    case Returned => [LoadStart]
  }

  ghost function Readied(s: State): State {
    match s.load
    case Receiving => s
    case Sending => s.(load := Receiving, jobs := s.jobs + 1)
    case Returned => s.(load := Receiving, cancelled := false)
  }

  lemma LoadGetsReady(s: State)
    requires s.load.Returned? ==> s.control.Free?
    ensures Path(s, LoadReady(s), Readied(s)) && WithinEpoch(LoadReady(s))
  {
    if s.load.Receiving? {
      PathNone(s);
    } else {
      PathOne(s, LoadReady(s)[0]);
    }
  }

  ghost function Takes(n: nat): seq<Step> {
    if n == 0 then [] else [LoadTake, LoadSend] + Takes(n - 1)
  }

  ghost function Emptied(s: State): State {
    s.(ch := 0, jobs := s.jobs + s.ch)
  }

  lemma {:induction false} LoadTakesAll(s: State)
    requires s.load.Receiving?
    ensures Path(s, Takes(s.ch), Emptied(s)) && WithinEpoch(Takes(s.ch))
    decreases s.ch
  {
    if s.ch == 0 {
      PathNone(s);
    } else {
      var t := Next(s, LoadTake);
      var u := Next(t, LoadSend);
      LoadTakesAll(u);
      PathCons(t, LoadSend, Takes(u.ch), Emptied(s));
      PathCons(s, LoadTake, [LoadSend] + Takes(u.ch), Emptied(s));
      assert [LoadTake] + ([LoadSend] + Takes(u.ch)) == Takes(s.ch);
    }
  }

  // ---------------------------------------------------------------------------------------------
  // The producer finishes its pushes

  /** n pushes from a channel of length ch; when it is full, `load` first makes room for one. */
  ghost function PushSteps(ch: nat, n: nat): seq<Step>
    decreases n
  {
    if n == 0 then []
    else if ch < BUFFER_SIZE then [Push] + PushSteps(ch + 1, n - 1)
    else [LoadTake, LoadSend, Push] + PushSteps(ch, n - 1)
  }

  ghost function Filled(s: State): State
    requires s.producer.Pushing?
  {
    var level := s.ch + s.producer.left;
    s.(ch := Capped(level),
       jobs := s.jobs + (level - Capped(level)),
       producer := s.producer.(left := 0),
       book := s.book.(pushed := s.book.pushed + s.producer.left))
  }

  lemma {:induction false} PushStepsStayInEpoch(ch: nat, n: nat)
    ensures WithinEpoch(PushSteps(ch, n))
    decreases n
  {
    if n > 0 {
      PushStepsStayInEpoch(if ch < BUFFER_SIZE then ch + 1 else ch, n - 1);
    }
  }

  /** A push, seen from a channel that ends as full as it was if it was full. */
  ghost function OnePushed(s: State): State
    requires s.producer.Pushing? && s.producer.left > 0
  {
    s.(ch := if s.ch < BUFFER_SIZE then s.ch + 1 else s.ch,
       producer := s.producer.(left := s.producer.left - 1),
       book := s.book.(pushed := s.book.pushed + 1))
  }

  /** Room for one token: load takes one and hands it on, and the producer pushes. */
  lemma OneThrough(s: State) returns (t: State, u: State)
    requires s.producer.Pushing? && s.producer.left > 0 && s.ch == BUFFER_SIZE && s.load.Receiving?
    ensures CanStep(s, LoadTake) && t == Next(s, LoadTake)
    ensures CanStep(t, LoadSend) && u == Next(t, LoadSend)
    ensures CanStep(u, Push) && Next(u, Push) == OnePushed(s.(jobs := s.jobs + 1))
    ensures Filled(OnePushed(s.(jobs := s.jobs + 1))) == Filled(s)
  {
    t := Next(s, LoadTake);
    u := Next(t, LoadSend);
  }

  lemma {:induction false} PushesFill(s: State)
    requires s.producer.Pushing? && s.ch <= BUFFER_SIZE
    requires s.load.Receiving? || s.ch + s.producer.left <= BUFFER_SIZE
    ensures Path(s, PushSteps(s.ch, s.producer.left), Filled(s))
    decreases s.producer.left
  {
    hide Path;
    var n := s.producer.left;
    if n == 0 {
      PathNone(s);
    } else if s.ch < BUFFER_SIZE {
      PushesFill(OnePushed(s));
      PathCons(s, Push, PushSteps(s.ch + 1, n - 1), Filled(s));
    } else {
      hide CanStep, Next, Filled;
      var t, u := OneThrough(s);
      var rest := PushSteps(s.ch, n - 1);
      PushesFill(OnePushed(s.(jobs := s.jobs + 1)));
      PathCons(u, Push, rest, Filled(s));
      PathCons(t, LoadSend, [Push] + rest, Filled(s));
      PathCons(s, LoadTake, [LoadSend] + ([Push] + rest), Filled(s));
      assert [LoadTake] + ([LoadSend] + ([Push] + rest)) == PushSteps(s.ch, n);
    }
  }

  // ---------------------------------------------------------------------------------------------
  // The producer takes a tick and computes its tokens

  ghost function TickSteps(s: State): seq<Step> {
    (if s.tick then [] else [Fire]) + [TakeTick, ReadClock, Compute]
  }

  ghost function Computed(s: State): State {
    s.(tick := false,
       producer := Counting(s.clock, Earned(s.lastEvent, s.clock, s.limit) + s.surplus, s.epoch))
  }

  lemma TickComputes(s: State)
    requires s.producer.Selecting? && (s.tick || s.ticking)
    ensures Path(s, TickSteps(s), Computed(s)) && WithinEpoch(TickSteps(s))
  {
    hide Earned;
    var first: seq<Step> := if s.tick then [] else [Fire];
    var s0 := s.(tick := true);
    if s.tick {
      PathNone(s);
    } else {
      PathOne(s, Fire);
    }
    var s1 := Next(s0, TakeTick);
    var s2 := Next(s1, ReadClock);
    PathOne(s2, Compute);
    PathCons(s1, ReadClock, [Compute], Computed(s));
    PathCons(s0, TakeTick, [ReadClock] + [Compute], Computed(s));
    assert [TakeTick] + ([ReadClock] + [Compute]) == [TakeTick, ReadClock, Compute];
    PathJoin(s, first, s0, [TakeTick, ReadClock, Compute], Computed(s));
  }
}
