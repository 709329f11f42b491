/**
 The limiter protocol and the pipeline as one system: a push, a drain, a receive and a hand-over are the same step in
 both. What a load stage can complete, and that Stop returns even when the job queue is full.
 */
module LoadStage {
  import opened Wrappers
  import opened Numbers
  import opened RateLimiter
  import L = LimiterProtocol
  import C = LimiterControl
  import Late = LimiterLate
  import P = Pipeline
  import W = Workers

  datatype State = State(limiter: L.State, pipe: P.State)

  /** A step of the limiter's side, or one that concerns jobs, workers and clients only. */
  datatype Step = Shared(e: L.Step) | Local(f: P.Step)

  /** The same step as the pipeline sees it. */
  function Mirror(e: L.Step): Option<P.Step> {
    match e
    case Push => Some(P.Push)
    case DrainOne => Some(P.Drain)
    case ClearOne => Some(P.Drain)
    case LoadTake => Some(P.Take)
    case LoadSend => Some(P.Send)
    case LoadReturn => Some(P.Finish)
    case LoadStart => Some(P.StartLoad)
    case _ => None
  }

  predicate IsLocal(s: State, f: P.Step) {
    match f
    case New => true
    case StartBurst => true
    case BurstSend => true
    case Spawn => true
    case Work(_, _) => true
    case Finish => s.pipe.feeder.Bursting?
    case _ => false
  }

  ghost predicate CanStep(s: State, m: Step) {
    match m
    case Shared(e) => L.CanStep(s.limiter, e) && (Mirror(e).Some? ==> P.CanStep(s.pipe, Mirror(e).value))
    case Local(f) => IsLocal(s, f) && P.CanStep(s.pipe, f)
  }

  ghost function Next(s: State, m: Step): State
    requires CanStep(s, m)
  {
    match m
    case Shared(e) =>
      State(L.Next(s.limiter, e), if Mirror(e).Some? then P.Next(s.pipe, Mirror(e).value) else s.pipe)
    case Local(f) => s.(pipe := P.Next(s.pipe, f))
  }

  ghost predicate Feasible(s: State, steps: seq<Step>)
    decreases |steps|
  {
    steps != [] ==> CanStep(s, steps[0]) && Feasible(Next(s, steps[0]), steps[1..])
  }

  ghost function Exec(s: State, steps: seq<Step>): State
    requires Feasible(s, steps)
    decreases |steps|
  {
    if steps == [] then s else Exec(Next(s, steps[0]), steps[1..])
  }

  ghost function Opening(start: real, success: int): State {
    State(L.Opening(start), P.Opening(success))
  }

  /** Both sides agree on the channel and on where the load loop is. */
  ghost predicate Coupled(s: State) {
    && s.limiter.ch == s.pipe.ch
    && (s.limiter.load.Receiving? <==> s.pipe.feeder.Receiving?)
    && (s.limiter.load.Sending? <==> s.pipe.feeder.Sending?)
  }

  ghost predicate Good(s: State) {
    L.Good(s.limiter) && P.Good(s.pipe) && Coupled(s)
  }

  lemma OpeningIsGood(start: real, success: int)
    requires start >= 0.0
    ensures Good(Opening(start, success))
  {
    L.OpeningIsGood(start);
    P.OpeningIsGood(success);
  }

  lemma LocalKeepsChannel(s: State, f: P.Step)
    requires Coupled(s) && IsLocal(s, f) && P.CanStep(s.pipe, f)
    ensures var q := P.Next(s.pipe, f);
      && q.ch == s.pipe.ch
      && q.feeder.Receiving? == s.pipe.feeder.Receiving?
      && q.feeder.Sending? == s.pipe.feeder.Sending?
  {
    hide P.Queued, W.Count;
  }

  lemma SharedKeepsCoupled(s: State, e: L.Step)
    requires Coupled(s) && CanStep(s, Shared(e))
    ensures Coupled(Next(s, Shared(e)))
  {
    hide Earned, Trunc, P.Worked, P.Renewed;
  }

  lemma StepKeepsCoupled(s: State, m: Step)
    requires Coupled(s) && CanStep(s, m)
    ensures Coupled(Next(s, m))
  {
    hide L.Next, P.Next, L.CanStep, P.CanStep;
    match m {
      case Shared(e) => SharedKeepsCoupled(s, e);
      case Local(f) => LocalKeepsChannel(s, f);
    }
  }

  lemma StepKeepsGood(s: State, m: Step)
    requires Good(s) && CanStep(s, m)
    ensures Good(Next(s, m))
  {
    hide L.Good, P.Good, L.Next, P.Next, L.CanStep, P.CanStep, Coupled;
    StepKeepsCoupled(s, m);
    match m {
      case Shared(e) =>
        L.StepKeepsGood(s.limiter, e);
        if Mirror(e).Some? {
          P.StepKeepsGood(s.pipe, Mirror(e).value);
        }
      case Local(f) => P.StepKeepsGood(s.pipe, f);
    }
  }

  lemma {:induction false} RunKeepsGood(s: State, steps: seq<Step>)
    requires Good(s) && Feasible(s, steps)
    ensures Good(Exec(s, steps))
    decreases |steps|
  {
    hide Good, CanStep, Next;
    if steps != [] {
      StepKeepsGood(s, steps[0]);
      RunKeepsGood(Next(s, steps[0]), steps[1..]);
    }
  }

  // ---------------------------------------------------------------------------------------------
  // What a stage completes

  /** A client has just been created and nobody has sent it a job. */
  ghost predicate StageBegins(p: P.State) {
    && p.clients != []
    && p.feeder.Returned?
    && p.stage.burst == p.stage.completed == 0
    && p.clients[P.Current(p)].queue == 0
    && W.Count(p.workers, P.InFlight(P.Current(p))) == 0
  }

  /** No new client and no burst; SetLimit may be called at any time. */
  ghost predicate KeepsClient(m: Step) {
    m.Local? ==> !m.f.New? && !m.f.BurstSend?
  }

  ghost predicate OfOneClient(steps: seq<Step>) {
    forall i :: 0 <= i < |steps| ==> KeepsClient(steps[i])
  }

  ghost predicate StaysInStage(m: Step) {
    KeepsClient(m) && (m.Shared? ==> !m.e.StoreZero? && !m.e.StoreNew?)
  }

  /** The steps of one load stage at one limit: no further setLimit either. */
  ghost predicate InStage(steps: seq<Step>) {
    forall i :: 0 <= i < |steps| ==> StaysInStage(steps[i])
  }

  lemma InStageIsOfOneClient(steps: seq<Step>)
    requires InStage(steps)
    ensures OfOneClient(steps)
  {
    forall i | 0 <= i < |steps| ensures KeepsClient(steps[i]) {
      assert StaysInStage(steps[i]);
    }
  }

  /** The steps of the limiter's side of a run. */
  ghost function Limiting(steps: seq<Step>): seq<L.Step> {
    if steps == [] then []
    else (if steps[0].Shared? then [steps[0].e] else []) + Limiting(steps[1..])
  }

  lemma {:induction false} LimiterSideRuns(s: State, steps: seq<Step>)
    requires Feasible(s, steps)
    ensures L.Feasible(s.limiter, Limiting(steps))
    ensures L.Exec(s.limiter, Limiting(steps)) == Exec(s, steps).limiter
    ensures InStage(steps) ==> L.WithinEpoch(Limiting(steps))
    decreases |steps|
  {
    hide L.CanStep, L.Next, P.CanStep, P.Next;
    if steps != [] {
      LimiterSideRuns(Next(s, steps[0]), steps[1..]);
      var rest := Limiting(steps[1..]);
      if steps[0].Shared? {
        assert ([steps[0].e] + rest)[1..] == rest;
      } else {
        assert [] + rest == rest;
      }
      if InStage(steps) {
        assert StaysInStage(steps[0]);
        assert InStage(steps[1..]);
      }
    }
  }

  /** What stays fixed while there is one client and no burst; `pushes` were made in between. */
  ghost predicate SameClient(s: P.State, t: P.State, pushes: nat) {
    && t.stage.chAtStart == s.stage.chAtStart
    && t.stage.carried == s.stage.carried
    && t.stage.burst == s.stage.burst
    && t.stage.drained >= s.stage.drained
    && t.stage.pushed == s.stage.pushed + pushes
    && |t.clients| == |s.clients|
  }

  lemma StepKeepsClient(s: State, m: Step)
    requires CanStep(s, m) && KeepsClient(m)
    ensures SameClient(s.pipe, Next(s, m).pipe, if m == Shared(L.Push) then 1 else 0)
  {
    hide Earned, L.Measured, L.Published;
  }

  lemma {:induction false} RunKeepsClient(s: State, steps: seq<Step>)
    requires Feasible(s, steps) && OfOneClient(steps)
    ensures SameClient(s.pipe, Exec(s, steps).pipe, L.Pushes(Limiting(steps)))
    decreases |steps|
  {
    hide CanStep, Next;
    if steps != [] {
      assert KeepsClient(steps[0]);
      assert OfOneClient(steps[1..]);
      StepKeepsClient(s, steps[0]);
      RunKeepsClient(Next(s, steps[0]), steps[1..]);
      var rest := Limiting(steps[1..]);
      if steps[0].Shared? {
        assert ([steps[0].e] + rest)[1..] == rest;
      } else {
        assert [] + rest == rest;
      }
    }
  }

  /** Requests are paid for by tokens that were in the channel, by pushes, or by jobs of earlier clients. */
  lemma CountedArePushed(s: State, steps: seq<Step>)
    requires Good(s) && StageBegins(s.pipe)
    requires Feasible(s, steps) && OfOneClient(steps)
    ensures Exec(s, steps).pipe.metrics.total <= s.limiter.ch + L.Pushes(Limiting(steps)) + s.pipe.stage.carried
  {
    hide Feasible, Exec, OfOneClient, W.Count, L.Good, L.Pushes, Limiting;
    RunKeepsGood(s, steps);
    RunKeepsClient(s, steps);
    var p, q := s.pipe, Exec(s, steps).pipe;
    assert p.stage.chAtStart + p.stage.pushed == p.ch + p.stage.drained;
    assert q.stage.completed + q.stage.drained <= q.stage.chAtStart + q.stage.pushed;
    assert q.stage.earlier <= q.stage.carried;
  }

  /**
   A stage in which SetLimit is called again and again while `load` runs, as in calibration, in every interleaving of
   the whole system: requestSum is at most the jobs of earlier clients, the tokens in the channel, what the producer
   has credit for, the integral of the limit, and what late batches get paid twice.
   */
  lemma CalibrationAccounted(s: State, steps: seq<Step>)
    requires Good(s) && StageBegins(s.pipe)
    requires Feasible(s, steps) && OfOneClient(steps)
    ensures L.Feasible(s.limiter, Limiting(steps))
    ensures Exec(s, steps).pipe.metrics.total as real
         <= s.pipe.stage.carried as real + s.limiter.ch as real + Late.Owed(s.limiter)
            + Late.Integral(s.limiter, Limiting(steps)) + Late.LateCredit(s.limiter, Limiting(steps))
  {
    hide Feasible, Exec, OfOneClient, StageBegins, L.Feasible, L.Exec, L.Pushes, L.Good, P.Good, Limiting, Late.Owed,
         Late.Integral, Late.LateCredit;
    LimiterSideRuns(s, steps);
    CountedArePushed(s, steps);
    Late.RunPays(s.limiter, Limiting(steps));
    L.RunKeepsGood(s.limiter, Limiting(steps));
    Late.OwedNonNeg(L.Exec(s.limiter, Limiting(steps)));
  }

  /** In any state of an epoch, from its book. */
  lemma PushedInEpoch(s: L.State)
    requires L.Good(s)
    ensures var b := s.book;
      b.pushed as real <= b.stale as real + b.carried + Earned(b.base, s.clock, s.limit)
  {
    hide Earned;
    var b := s.book;
    EarnedNonNeg(b.base, s.clock, s.limit);
    if !L.HasStaleBatch(s) {
      var last := if s.producer.Pushing? then s.producer.now else s.lastEvent;
      EarnedSplits(b.base, last, s.clock, s.limit);
      EarnedNonNeg(last, s.clock, s.limit);
    }
  }

  /**
   A load stage from the moment SetLimit returns, in every interleaving of limiter, load, workers and queue: requestSum
   is at most the jobs of earlier clients, the tokens that were in the channel, the rest of a batch that SetLimit
   overtook, and what the rate is worth since that batch read the clock, or since SetLimit if there is none. The
   book of the epoch is anchored in the producer's position at that moment.
   */
  lemma RequestsAccounted(s: State, steps: seq<Step>)
    requires Good(s) && CanStep(s, Shared(L.StoreNew))
    requires StageBegins(s.pipe)
    requires Feasible(Next(s, Shared(L.StoreNew)), steps) && InStage(steps)
    ensures var s0 := Next(s, Shared(L.StoreNew));
      var t := Exec(s0, steps);
      var b := t.limiter.book;
      && t.pipe.metrics.total as real
           <= s.pipe.stage.carried as real + s.limiter.ch as real + b.stale as real + b.carried
              + Earned(b.base, t.limiter.clock, t.limiter.limit)
      && L.Feasible(s0.limiter, Limiting(steps))
      && L.Anchored(s0.limiter, t.limiter, L.FirstRead(None, s0.limiter, Limiting(steps)))
  {
    hide Feasible, Exec, InStage, OfOneClient, Limiting, StageBegins, L.Feasible, L.Exec, L.WithinEpoch, L.Good,
         P.Good, L.Anchored, L.JustStored, L.FirstRead, L.Pushes, Earned;
    var s0 := Next(s, Shared(L.StoreNew));
    StepKeepsGood(s, Shared(L.StoreNew));
    L.SetLimitOpensEpoch(s.limiter, L.StoreNew);
    InStageIsOfOneClient(steps);
    CountedArePushed(s0, steps);
    RunKeepsGood(s0, steps);
    PushedInEpoch(Exec(s0, steps).limiter);
    LimiterSideRuns(s0, steps);
    L.EpochAnchors(s0.limiter, s0.limiter, Limiting(steps), None);
  }

  lemma NoBatchAnchored(s: L.State, t: L.State, read: Option<nat>)
    requires L.Good(s) && L.JustStored(s) && L.NoBatch(s) && L.Anchored(s, t, read)
    ensures t.book.stale == 0 && t.book.carried == s.surplus < 1.0 && t.book.base == s.clock
    ensures t.limit == s.limit
  {
  }

  /** If SetLimit overtook no batch, the stage completes less than limit * elapsed + 1 plus what was there. */
  lemma RequestsWithinRate(s: State, steps: seq<Step>)
    requires Good(s) && CanStep(s, Shared(L.StoreNew)) && L.NoBatch(s.limiter)
    requires StageBegins(s.pipe)
    requires Feasible(Next(s, Shared(L.StoreNew)), steps) && InStage(steps)
    ensures var s0 := Next(s, Shared(L.StoreNew));
      var t := Exec(s0, steps);
      t.pipe.metrics.total as real
        < s.pipe.stage.carried as real + s.limiter.ch as real
          + Earned(s.limiter.clock, t.limiter.clock, s0.limiter.limit) + 1.0
  {
    hide Feasible, Exec, InStage, StageBegins, L.Feasible, L.Exec, P.Good, L.Anchored, L.JustStored, L.FirstRead,
         L.Good, Earned;
    var s0 := Next(s, Shared(L.StoreNew));
    RequestsAccounted(s, steps);
    L.SetLimitOpensEpoch(s.limiter, L.StoreNew);
    NoBatchAnchored(s0.limiter, Exec(s0, steps).limiter, L.FirstRead(None, s0.limiter, Limiting(steps)));
  }

  ghost predicate NoStoreNew(steps: seq<Step>) {
    forall i :: 0 <= i < |steps| ==> steps[i] != Shared(L.StoreNew)
  }

  lemma {:induction false} FirstSetLimitRuns(s: State, steps: seq<Step>)
    requires Good(s) && Late.FirstSetLimit(s.limiter) && Feasible(s, steps) && NoStoreNew(steps)
    ensures Late.FirstSetLimit(Exec(s, steps).limiter)
    decreases |steps|
  {
    hide Late.FirstSetLimit, L.CanStep, L.Next, P.CanStep, P.Next, L.Good, P.Good;
    if steps != [] {
      assert steps[0] != Shared(L.StoreNew);
      StepKeepsGood(s, steps[0]);
      if steps[0].Shared? {
        Late.FirstSetLimitStep(s.limiter, steps[0].e);
      }
      assert NoStoreNew(steps[1..]);
      FirstSetLimitRuns(Next(s, steps[0]), steps[1..]);
    }
  }

  lemma FirstSetLimitIsClean(s: L.State)
    requires Late.FirstSetLimit(s) && L.CanStep(s, L.StoreNew)
    ensures s.ch == 0 && L.NoBatch(s)
  {
  }

  lemma CalledFirst(s: L.State)
    requires L.Good(s) && s.control.Zeroing? && s.limit == 0.0
    ensures Late.FirstSetLimit(s)
  {
  }

  /**
   A stage whose SetLimit is the first one, as when the rate is given on the command line: from the call on, in every
   interleaving, requestSum is less than limit * elapsed + 1 plus the jobs of earlier clients.
   */
  lemma ConfiguredRateHolds(s: State, pre: seq<Step>, steps: seq<Step>)
    requires Good(s) && s.limiter.control.Zeroing? && s.limiter.limit == 0.0
    requires Feasible(s, pre) && NoStoreNew(pre) && CanStep(Exec(s, pre), Shared(L.StoreNew))
    requires StageBegins(Exec(s, pre).pipe)
    requires Feasible(Next(Exec(s, pre), Shared(L.StoreNew)), steps) && InStage(steps)
    ensures var u := Exec(s, pre);
      var s0 := Next(u, Shared(L.StoreNew));
      var t := Exec(s0, steps);
      t.pipe.metrics.total as real
        < u.pipe.stage.carried as real + Earned(u.limiter.clock, t.limiter.clock, s0.limiter.limit) + 1.0
  {
    hide Feasible, Exec, InStage, NoStoreNew, StageBegins, Late.FirstSetLimit, P.Good, L.Good, L.Next, P.Next,
         Earned;
    CalledFirst(s.limiter);
    FirstSetLimitRuns(s, pre);
    RunKeepsGood(s, pre);
    FirstSetLimitIsClean(Exec(s, pre).limiter);
    RequestsWithinRate(Exec(s, pre), steps);
  }

  // ---------------------------------------------------------------------------------------------
  // Stop returns, even when the job queue is full

  /** Stop waits, `load` keeps consuming, and worker w belongs to the current client. */
  ghost predicate Stopping(s: State, w: nat) {
    && C.Stopping(s.limiter)
    && w < |s.pipe.workers| && s.pipe.clients != []
    && s.pipe.workers[w].client == P.Current(s.pipe)
  }

  ghost function Ranks(ws: seq<P.Worker>): nat {
    if ws == [] then 0 else ws[0].pc.Rank() + Ranks(ws[1..])
  }

  lemma {:induction false} RanksUpdate(ws: seq<P.Worker>, i: nat, w: P.Worker)
    requires i < |ws|
    ensures Ranks(ws[i := w]) == Ranks(ws) - ws[i].pc.Rank() + w.pc.Rank()
  {
    if i == 0 {
      assert ws[i := w][1..] == ws[1..];
    } else {
      assert ws[i := w][1..] == ws[1..][i - 1 := w];
      RanksUpdate(ws[1..], i - 1, w);
    }
  }

  /** A token is worth the steps in which load takes it, hands it on, and a worker serves it. */
  ghost function Backlog(s: State): nat {
    12 * s.limiter.ch + (if s.limiter.load.Sending? then 11 else 0)
    + 10 * P.Queued(s.pipe.clients) + Ranks(s.pipe.workers)
  }

  /** Lexicographic descent: control, the buffered tick, the producer's phase, pushes left, backlog. */
  ghost predicate Below(t: State, s: State) {
    var l, k := t.limiter, s.limiter;
    if C.RankControl(l) != C.RankControl(k) then C.RankControl(l) < C.RankControl(k)
    else if C.RankTick(l) != C.RankTick(k) then C.RankTick(l) < C.RankTick(k)
    else if C.RankPhase(l) != C.RankPhase(k) then C.RankPhase(l) < C.RankPhase(k)
    else if C.RankLeft(l) != C.RankLeft(k) then C.RankLeft(l) < C.RankLeft(k)
    else Backlog(t) < Backlog(s)
  }

  lemma WorkLowersBacklog(s: State, i: nat, o: W.Outcome)
    requires P.CanStep(s.pipe, P.Work(i, o))
    ensures Backlog(s.(pipe := P.Worked(s.pipe, i, o))) < Backlog(s)
  {
    var p, q := s.pipe, P.Worked(s.pipe, i, o);
    RanksUpdate(p.workers, i, q.workers[i]);
    P.QueuedUpdate(p.clients, p.workers[i].client, q.clients[p.workers[i].client]);
  }

  lemma SendLowersBacklog(s: State)
    requires CanStep(s, Shared(L.LoadSend))
    ensures Backlog(Next(s, Shared(L.LoadSend))) < Backlog(s)
  {
    var c := s.pipe.clients[P.Current(s.pipe)];
    P.QueuedUpdate(s.pipe.clients, P.Current(s.pipe), c.(queue := c.queue + 1));
  }

  /** Steps other than the passing of time and the start of a worker. */
  ghost predicate Moves(m: Step) {
    m != Local(P.Spawn) && !(m.Shared? && m.e.Elapse?)
  }

  lemma SharedDescends(s: State, e: L.Step)
    requires Good(s) && C.Stopping(s.limiter) && CanStep(s, Shared(e)) && !e.Elapse?
    ensures var t := Next(s, Shared(e));
      t.limiter.control.Stopped? || (C.Stopping(t.limiter) && Below(t, s))
  {
    hide Earned, P.Queued, Ranks, P.Good;
    C.StoppingDescends(s.limiter, e);
    if e == L.LoadSend {
      SendLowersBacklog(s);
    }
  }

  lemma StoppingDescends(s: State, m: Step, w: nat)
    requires Good(s) && Stopping(s, w) && CanStep(s, m) && Moves(m)
    ensures var t := Next(s, m); t.limiter.control.Stopped? || (Stopping(t, w) && Below(t, s))
  {
    hide P.Good, L.Good, Backlog;
    match m {
      case Shared(e) =>
        SharedDescends(s, e);
      case Local(f) =>
        assert f.Work?;
        WorkLowersBacklog(s, f.i, f.o);
    }
  }

  /** When that worker is blocked, its queue is empty, and some goroutine of the limiter's side moves. */
  lemma UnblockedStep(s: State, w: nat, o: W.Outcome) returns (e: L.Step)
    requires Good(s) && Stopping(s, w) && !CanStep(s, Local(P.Work(w, o)))
    ensures !e.Elapse? && CanStep(s, Shared(e))
  {
    var l := s.limiter;
    assert s.pipe.clients[P.Current(s.pipe)].queue == 0;
    e := if l.control.Clearing? then (if l.ch > 0 then L.ClearOne else L.ClearDone)
         else match l.producer
           case Selecting => L.Handshake
           case Woken => L.ReadClock
           case Locking(_) => L.Compute
           case Counting(_, _, _) => L.Measure
           case Pushing(_, left, _) =>
             if left == 0 then L.Publish
             else if l.ch < BUFFER_SIZE then L.Push
             else if l.load.Receiving? then L.LoadTake
             else L.LoadSend
           case Exited => L.Handshake;
  }

  /** Stop cannot get stuck: with the channel and the job queue full, the current client's worker moves. */
  lemma StoppingCanMove(s: State, w: nat, o: W.Outcome)
    requires Good(s) && Stopping(s, w)
    ensures exists m :: Moves(m) && CanStep(s, m)
  {
    var l := s.limiter;
    if CanStep(s, Local(P.Work(w, o))) {
      assert Moves(Local(P.Work(w, o)));
    } else {
      var e := UnblockedStep(s, w, o);
      assert Moves(Shared(e)) && CanStep(s, Shared(e));
    }
  }

  ghost predicate MovesAgain(moves: nat -> Step, k: nat) {
    exists j :: k <= j && Moves(moves(j))
  }

  /** An infinite behaviour in which, while Stop waits, no worker is started and time does not pass forever. */
  ghost predicate Behaviour(run: nat -> State, moves: nat -> Step) {
    && (forall k: nat :: CanStep(run(k), moves(k)) && run(k + 1) == Next(run(k), moves(k)))
    && (forall k: nat :: C.Stopping(run(k).limiter) ==> moves(k) != Local(P.Spawn) && MovesAgain(moves, k))
  }

  /** The first move from i on; until then only time passes. */
  lemma {:induction false} ReachMove(run: nat -> State, moves: nat -> Step, i: nat, j: nat, w: nat) returns (f: nat)
    requires Behaviour(run, moves) && i <= j && Moves(moves(j)) && Good(run(i)) && Stopping(run(i), w)
    ensures i <= f && Moves(moves(f)) && Good(run(f)) && Stopping(run(f), w)
    ensures run(f) == run(i).(limiter := run(i).limiter.(clock := run(f).limiter.clock))
    decreases j - i
  {
    hide Good;
    if Moves(moves(i)) {
      f := i;
    } else {
      assert CanStep(run(i), moves(i)) && run(i + 1) == Next(run(i), moves(i));
      StepKeepsGood(run(i), moves(i));
      f := ReachMove(run, moves, i + 1, j, w);
    }
  }

  /** In every behaviour of the whole system, with at least one worker for the current client, Stop returns. */
  lemma {:induction false} StopReturns(run: nat -> State, moves: nat -> Step, i: nat, w: nat) returns (k: nat)
    requires Behaviour(run, moves) && Good(run(i)) && Stopping(run(i), w)
    ensures k > i && run(k).limiter.control.Stopped?
    decreases C.RankControl(run(i).limiter), C.RankTick(run(i).limiter), C.RankPhase(run(i).limiter),
              C.RankLeft(run(i).limiter), Backlog(run(i))
  {
    hide Good, CanStep, Next, Moves;
    assert MovesAgain(moves, i);
    var j :| i <= j && Moves(moves(j));
    var f := ReachMove(run, moves, i, j, w);
    assert CanStep(run(f), moves(f)) && run(f + 1) == Next(run(f), moves(f));
    StepKeepsGood(run(f), moves(f));
    StoppingDescends(run(f), moves(f), w);
    if run(f + 1).limiter.control.Stopped? {
      k := f + 1;
    } else {
      k := StopReturns(run, moves, f + 1, w);
    }
  }
}
