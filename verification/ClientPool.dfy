/**
 One client's worker pool: RunWorkers, the workers' life from the go statement to wg.Done, and Flush. The
 goroutine that calls Flush is a method; before each of its shared actions the workers take any steps they can,
 in the order given by an arbitrary schedule. No one else sends jobs or starts workers during a Flush.
 */
module ClientPool {
  import opened Workers
  import P = Pipeline

  datatype Goroutine =
    | Spawned                  // started, has not counted itself in c.workers
    | Running(pc: Pc)          // in run
    | Leaving                  // run has returned, about to call wg.Done
    | Gone
  {
    /** Steps left if no further job arrives. */
    function Rank(): nat {
      match this
      case Spawned => 3
      case Running(pc) => 2 + pc.Rank()
      case Leaving => 1
      case Gone => 0
    }
  }

  /** The client's fields, the metrics generation in force, and all goroutines ever started. */
  datatype Pool = Pool(
    success: int,
    jobs: nat,                 // len(Jobsch)
    closed: bool,              // Jobsch is closed
    wg: nat,
    workers: nat,
    goroutines: seq<Goroutine>,
    metrics: Metrics,
    labels: Labels,
    settled: nat,              // goroutines started before the latest Flush
    taken: nat)                // jobs that workers have received
  {
    ghost predicate Valid() {
      && settled <= |goroutines|
      && (forall i :: 0 <= i < settled ==> goroutines[i].Gone?)
      && (forall i :: 0 <= i < |goroutines| ==> goroutines[i].Running? ==> Sound(goroutines[i].pc))
      && wg == Count(goroutines, IsLive)
      && workers + Count(goroutines, IsSpawned) + settled == |goroutines|
    }
  }

  predicate IsLive(g: Goroutine) { !g.Gone? }

  predicate IsSpawned(g: Goroutine) { g.Spawned? }

  /** Goroutine i has a step: it is blocked only at an empty channel that is not closed. */
  predicate CanRun(p: Pool, i: nat) {
    && i < |p.goroutines|
    && !p.goroutines[i].Gone?
    && (p.goroutines[i] == Running(Waiting) ==> p.jobs > 0 || p.closed)
    && (p.goroutines[i].Running? ==> Sound(p.goroutines[i].pc))
    && (p.goroutines[i].Leaving? ==> p.wg > 0)
  }

  function Ran(p: Pool, i: nat, o: Outcome): Pool
    requires CanRun(p, i)
  {
    match p.goroutines[i]
    case Spawned => p.(workers := p.workers + 1, goroutines := p.goroutines[i := Running(Waiting)])
    case Running(pc) =>
      if pc.Busy() then
        p.(metrics := Counted(pc, p.metrics), labels := Labelled(pc, p.labels),
           goroutines := p.goroutines[i := Running(Advance(pc, o, p.success))])
      else if p.jobs > 0 then
        p.(jobs := p.jobs - 1, goroutines := p.goroutines[i := Running(Requesting)], taken := p.taken + 1)
      else
        p.(goroutines := p.goroutines[i := Leaving])
    case Leaving => p.(wg := p.wg - 1, goroutines := p.goroutines[i := Gone])
    case Gone => p
  }

  function Ranks(gs: seq<Goroutine>): nat {
    if gs == [] then 0 else gs[0].Rank() + Ranks(gs[1..])
  }

  /** Every step of a worker lowers this: a job is worth the ten steps it takes to receive and serve it. */
  function Measure(p: Pool): nat {
    10 * p.jobs + Ranks(p.goroutines)
  }

  lemma {:induction false} RanksUpdate(gs: seq<Goroutine>, i: nat, g: Goroutine)
    requires i < |gs|
    ensures Ranks(gs[i := g]) == Ranks(gs) - gs[i].Rank() + g.Rank()
  {
    if i == 0 {
      assert gs[i := g][1..] == gs[1..];
    } else {
      assert gs[i := g][1..] == gs[1..][i - 1 := g];
      RanksUpdate(gs[1..], i - 1, g);
    }
  }

  lemma StepDescends(p: Pool, i: nat, o: Outcome)
    requires CanRun(p, i)
    ensures Measure(Ran(p, i, o)) < Measure(p)
  {
    RanksUpdate(p.goroutines, i, Ran(p, i, o).goroutines[i]);
  }

  lemma StepKeepsValid(p: Pool, i: nat, o: Outcome)
    requires p.Valid() && CanRun(p, i)
    ensures Ran(p, i, o).Valid()
  {
    var q := Ran(p, i, o);
    CountUpdate(p.goroutines, i, q.goroutines[i], IsLive);
    CountUpdate(p.goroutines, i, q.goroutines[i], IsSpawned);
    if p.goroutines[i].Running? && p.goroutines[i].pc.Busy() {
      AdvanceIsSound(p.goroutines[i].pc, o, p.success);
    }
  }

  /** While the wait group is not done, a closed pool has a worker that can run. */
  lemma {:induction false} LiveWorker(gs: seq<Goroutine>) returns (i: nat)
    requires Count(gs, IsLive) > 0
    ensures i < |gs| && IsLive(gs[i])
  {
    if IsLive(gs[0]) {
      i := 0;
    } else {
      var j := LiveWorker(gs[1..]);
      i := j + 1;
    }
  }

  /** What any run of the workers keeps. */
  ghost predicate Progressed(p: Pool, q: Pool) {
    && q.Valid()
    && Measure(q) <= Measure(p)
    && q.jobs <= p.jobs && q.jobs + q.taken == p.jobs + p.taken
    && p.labels.codes <= q.labels.codes && p.labels.messages <= q.labels.messages
    && q.closed == p.closed && q.success == p.success && q.settled == p.settled
    && |q.goroutines| == |p.goroutines|
    && (p.wg == 0 ==> q == p)
  }

  /** The workers' steps of `schedule` that are possible, in order. */
  function RunAll(p: Pool, schedule: seq<(nat, Outcome)>): Pool
    decreases |schedule|
  {
    if schedule == [] then p
    else if CanRun(p, schedule[0].0) then RunAll(Ran(p, schedule[0].0, schedule[0].1), schedule[1..])
    else RunAll(p, schedule[1..])
  }

  lemma {:induction false} RunAllProgresses(p: Pool, schedule: seq<(nat, Outcome)>)
    requires p.Valid()
    ensures Progressed(p, RunAll(p, schedule))
    decreases |schedule|
  {
    if schedule != [] {
      var (i, o) := schedule[0];
      if CanRun(p, i) {
        StepKeepsValid(p, i, o);
        StepDescends(p, i, o);
        CountNone(p.goroutines, IsLive);
        assert IsLive(p.goroutines[i]);
        RunAllProgresses(Ran(p, i, o), schedule[1..]);
      } else {
        RunAllProgresses(p, schedule[1..]);
      }
    }
  }

  /** The result of RunWorkers: at least one more goroutine, already in the wait group. */
  function Started(p: Pool, n: int): Pool {
    var m: nat := if n < 1 then 1 else n;
    p.(wg := p.wg + m, goroutines := p.goroutines + seq(m, _ => Spawned))
  }

  lemma {:induction false} CountConstant(m: nat, g: Goroutine, p: Goroutine -> bool)
    ensures Count(seq(m, _ => g), p) == if p(g) then m else 0
  {
    if m > 0 {
      assert seq(m, _ => g)[1..] == seq(m - 1, _ => g);
      CountConstant(m - 1, g, p);
    }
  }

  lemma StartKeepsValid(p: Pool, n: int)
    requires p.Valid()
    ensures Started(p, n).Valid()
  {
    var m: nat := if n < 1 then 1 else n;
    CountAppend(p.goroutines, seq(m, _ => Spawned), IsLive);
    CountAppend(p.goroutines, seq(m, _ => Spawned), IsSpawned);
    CountConstant(m, Spawned, IsLive);
    CountConstant(m, Spawned, IsSpawned);
  }

  /** Amount may lag behind the goroutines started since the latest Flush, but never exceeds them. */
  lemma AmountLags(p: Pool)
    requires p.Valid()
    ensures p.workers <= |p.goroutines| - p.settled
    ensures p.workers == |p.goroutines| - p.settled <==> forall g :: g in p.goroutines ==> !g.Spawned?
  {
    CountNone(p.goroutines, IsSpawned);
    if forall g :: g in p.goroutines ==> !g.Spawned? {
      forall i | 0 <= i < |p.goroutines| ensures !IsSpawned(p.goroutines[i]) {
        assert p.goroutines[i] in p.goroutines;
      }
    }
  }

  /** A done wait group means that every goroutine has gone, including those that were slow to start. */
  lemma AllGone(p: Pool)
    requires p.Valid() && p.wg == 0
    ensures forall i :: 0 <= i < |p.goroutines| ==> p.goroutines[i].Gone?
    ensures Count(p.goroutines, IsSpawned) == 0
  {
    CountNone(p.goroutines, IsLive);
    forall i | 0 <= i < |p.goroutines| ensures p.goroutines[i].Gone? {
      assert !IsLive(p.goroutines[i]);
    }
    CountNone(p.goroutines, IsSpawned);
  }

  /** No worker runs on its own. */
  ghost predicate Quiet(schedule: nat -> seq<(nat, Outcome)>) {
    forall k :: schedule(k) == []
  }

  /** A Flush that began in p has got to q. */
  ghost predicate Flushing(p: Pool, q: Pool, quiet: bool) {
    && q.Valid()
    && |q.goroutines| == |p.goroutines|
    && p.labels.codes <= q.labels.codes && p.labels.messages <= q.labels.messages
    && p.taken <= q.taken && q.jobs + q.taken <= p.jobs + p.taken
    && (quiet ==> q.taken == p.taken)
  }

  lemma FlushingGoesOn(p: Pool, q: Pool, r: Pool, quiet: bool)
    requires Flushing(p, q, quiet) && Progressed(q, r) && (quiet ==> r == q || q.jobs == 0)
    ensures Flushing(p, r, quiet)
    ensures q.jobs == 0 ==> r.jobs == 0
  {
    hide Measure, Count;
  }

  class Client {
    const success: int
    var jobs: nat
    var closed: bool
    var wg: nat
    var workers: nat
    var goroutines: seq<Goroutine>
    var metrics: Metrics
    var labels: Labels
    ghost var settled: nat
    ghost var taken: nat

    ghost function View(): Pool
      reads this
    {
      Pool(success, jobs, closed, wg, workers, goroutines, metrics, labels, settled, taken)
    }

    constructor (sc: int)
      ensures View() == Pool(sc, 0, false, 0, 0, [], FRESH, NO_LABELS, 0, 0) && View().Valid()
    {
      success := sc;
      jobs, closed, wg, workers, goroutines := 0, false, 0, 0, [];
      metrics, labels, settled, taken := FRESH, NO_LABELS, 0, 0;
    }

    method RunWorkers(n: int)
      requires View().Valid()
      modifies this`wg, this`goroutines
      ensures View() == Started(old(View()), n) && View().Valid()
      ensures var m := if n < 1 then 1 else n;
        && |goroutines| == old(|goroutines|) + m && wg == old(wg) + m
        && goroutines[..old(|goroutines|)] == old(goroutines)
        && forall i :: old(|goroutines|) <= i < |goroutines| ==> goroutines[i].Spawned?
    {
      StartKeepsValid(View(), n);
      var m := n;
      if m < 1 {
        m := 1;
      }
      var i := 0;
      while i < m
        invariant 0 <= i <= m
        invariant wg == old(wg) + i
        invariant goroutines == old(goroutines) + seq(i, _ => Spawned)
      {
        wg := wg + 1;
        goroutines := goroutines + [Spawned];
        i := i + 1;
      }
    }

    /** Goroutine i takes its next step. */
    method Run(i: nat, o: Outcome)
      requires View().Valid() && i < |goroutines| && !goroutines[i].Gone?
      requires goroutines[i] == Running(Waiting) ==> jobs > 0 || closed
      requires goroutines[i].Leaving? ==> wg > 0
      modifies this
      ensures CanRun(old(View()), i)
      ensures View() == Ran(old(View()), i, o) && View().Valid()
    {
      StepKeepsValid(View(), i, o);
      match goroutines[i] {
        case Spawned =>
          workers := workers + 1;
          goroutines := goroutines[i := Running(Waiting)];
        case Running(pc) =>
          if pc.Busy() {
            metrics, labels := Counted(pc, metrics), Labelled(pc, labels);
            goroutines := goroutines[i := Running(Advance(pc, o, success))];
          } else if jobs > 0 {
            jobs, taken := jobs - 1, taken + 1;
            goroutines := goroutines[i := Running(Requesting)];
          } else {
            goroutines := goroutines[i := Leaving];
          }
        case Leaving =>
          wg := wg - 1;
          goroutines := goroutines[i := Gone];
      }
    }

    /** The workers run for a while. */
    method Yield(schedule: seq<(nat, Outcome)>)
      requires View().Valid()
      modifies this
      ensures View() == RunAll(old(View()), schedule)
      ensures Progressed(old(View()), View())
      ensures schedule == [] ==> View() == old(View())
    {
      RunAllProgresses(View(), schedule);
      var k := 0;
      while k < |schedule|
        invariant 0 <= k <= |schedule|
        invariant View().Valid()
        invariant RunAll(View(), schedule[k..]) == RunAll(old(View()), schedule)
      {
        var (i, o) := schedule[k];
        assert schedule[k..][1..] == schedule[k + 1..];
        if i < |goroutines| && !goroutines[i].Gone?
           && (goroutines[i] == Running(Waiting) ==> jobs > 0 || closed)
           && (goroutines[i].Leaving? ==> wg > 0) {
          Run(i, o);
        }
        k := k + 1;
      }
    }

    /** A caller blocked in wg.Wait on a closed channel: some live worker moves. */
    method Wait(o: Outcome)
      requires View().Valid() && wg > 0 && closed
      modifies this
      ensures Progressed(old(View()), View()) && Measure(View()) < Measure(old(View()))
    {
      ghost var j := LiveWorker(goroutines);
      var i :| 0 <= i < |goroutines| && !goroutines[i].Gone?;
      CountNone(goroutines, IsLive);
      StepDescends(View(), i, o);
      Run(i, o);
    }

    /** drainChan: receive until the queue is empty, while workers may receive too. */
    method DrainJobs(schedule: nat -> seq<(nat, Outcome)>)
      requires View().Valid()
      modifies this
      ensures Flushing(old(View()), View(), Quiet(schedule)) && jobs == 0 && closed == old(closed)
    {
      hide RunAll, CanRun, Ran, Ranks, Count, Measure;
      ghost var p := View();
      var k := 0;
      while jobs > 0
        invariant Flushing(p, View(), Quiet(schedule)) && closed == old(closed)
        decreases jobs
      {
        jobs := jobs - 1;
        ghost var q := View();
        Yield(schedule(k));
        FlushingGoesOn(p, q, View(), Quiet(schedule));
        k := k + 1;
      }
    }

    /** close(c.Jobsch) and wg.Wait on a drained queue. */
    method CloseAndWait(schedule: nat -> seq<(nat, Outcome)>, outcomes: nat -> Outcome)
      requires View().Valid() && jobs == 0
      modifies this
      ensures Flushing(old(View()), View(), true) && jobs == wg == 0 && closed
    {
      hide RunAll, CanRun, Ran, Ranks, Count, Measure;
      ghost var p := View();
      closed := true;
      var k := 0;
      while wg > 0
        invariant Flushing(p, View(), true) && jobs == 0 && closed
        decreases Measure(View())
      {
        ghost var q := View();
        Wait(outcomes(k));
        FlushingGoesOn(p, q, View(), true);
        q := View();
        Yield(schedule(k));
        FlushingGoesOn(p, q, View(), true);
        k := k + 1;
      }
    }

    /**
     Flush ends, whatever the schedule and however requests end. Afterwards no goroutine started before is left,
     workers is 0, the queue is empty and open, and the metrics are fresh; the label maps are kept. Workers receive no
     job once the queue is drained, and none at all if they do not run before.
     */
    method Flush(schedule: nat -> seq<(nat, Outcome)>, later: nat -> seq<(nat, Outcome)>, outcomes: nat -> Outcome)
      requires View().Valid() && !closed
      modifies this
      ensures View().Valid()
      ensures settled == |goroutines| == old(|goroutines|)
      ensures wg == 0 && workers == 0 && jobs == 0 && !closed && metrics == FRESH
      ensures old(labels.codes) <= labels.codes && old(labels.messages) <= labels.messages
      ensures old(taken) <= taken <= old(taken) + old(jobs)
      ensures Quiet(schedule) ==> taken == old(taken)
    {
      hide RunAll, CanRun, Ran, Ranks, Count, Measure, Quiet;
      DrainJobs(schedule);
      CloseAndWait(later, outcomes);
      AllGone(View());
      metrics := FRESH;
      Yield(later(0));
      workers, settled := 0, |goroutines|;
      Yield(later(1));
      jobs, closed := 0, false;
      Yield(later(2));
    }
  }

  // ---------------------------------------------------------------------------------------------
  // A worker here is a worker of the pipeline

  /** A goroutine outside run has no job. */
  function AsWorker(g: Goroutine): P.Worker {
    P.Worker(0, if g.Running? then g.pc else Waiting)
  }

  /** The pool as the only client of a pipeline. */
  function AsPipeline(p: Pool, stage: P.Stage): P.State {
    P.State(p.success, 0, P.Returned, [P.Client(p.jobs, p.labels)],
            seq(|p.goroutines|, i requires 0 <= i < |p.goroutines| => AsWorker(p.goroutines[i])), p.metrics, stage)
  }

  /** Receiving a job or acting on one is the pipeline's step of that worker; no other step shows there. */
  lemma RanIsWork(p: Pool, i: nat, o: Outcome, stage: P.Stage)
    requires CanRun(p, i)
    ensures var g, s, q := p.goroutines[i], AsPipeline(p, stage), Ran(p, i, o);
      if g.Running? && (g.pc.Busy() || p.jobs > 0) then
        && P.CanStep(s, P.Work(i, o))
        && P.Next(s, P.Work(i, o)) == AsPipeline(q, P.Next(s, P.Work(i, o)).stage)
      else
        AsPipeline(q, stage) == s
  {
    var g, s, q := p.goroutines[i], AsPipeline(p, stage), Ran(p, i, o);
    assert AsPipeline(q, stage).workers == s.workers[i := AsWorker(q.goroutines[i])];
    if g.Running? && (g.pc.Busy() || p.jobs > 0) {
      assert P.CanStep(s, P.Work(i, o));
      assert P.Next(s, P.Work(i, o)).clients == [P.Client(q.jobs, q.labels)];
    }
  }

  // ---------------------------------------------------------------------------------------------
  // After a Flush

  datatype Action = Act(i: nat, o: Outcome) | Start(n: int) | Enqueue

  ghost predicate CanAct(p: Pool, a: Action) {
    a.Act? ==> CanRun(p, a.i)
  }

  ghost function Acted(p: Pool, a: Action): Pool
    requires CanAct(p, a)
  {
    match a
    case Act(i, o) => Ran(p, i, o)
    case Start(n) => Started(p, n)
    case Enqueue => p.(jobs := p.jobs + 1)
  }

  ghost predicate Possible(p: Pool, actions: seq<Action>)
    decreases |actions|
  {
    actions != [] ==> CanAct(p, actions[0]) && Possible(Acted(p, actions[0]), actions[1..])
  }

  ghost function After(p: Pool, actions: seq<Action>): Pool
    requires Possible(p, actions)
    decreases |actions|
  {
    if actions == [] then p else After(Acted(p, actions[0]), actions[1..])
  }

  lemma ActionKeepsValid(p: Pool, a: Action)
    requires p.Valid() && CanAct(p, a)
    ensures Acted(p, a).Valid()
  {
    match a {
      case Act(i, o) => StepKeepsValid(p, i, o);
      case Start(n) => StartKeepsValid(p, n);
      case Enqueue =>
    }
  }

  /** The workers asked for: every RunWorkers starts at least one. */
  ghost function Requested(actions: seq<Action>): nat {
    if actions == [] then 0
    else
      (match actions[0]
       case Start(n) => if n < 1 then 1 else n
       case _ => 0) + Requested(actions[1..])
  }

  lemma ActionAddsGoroutines(p: Pool, a: Action)
    requires CanAct(p, a)
    ensures var q := Acted(p, a);
      q.settled == p.settled && |q.goroutines| == |p.goroutines| + match a
        case Start(n) => if n < 1 then 1 else n
        case _ => 0
  {
  }

  /**
   In every run of workers, RunWorkers calls and sends, with no Flush in between: exactly the workers asked for are
   started, and Amount rises by them, less those that have not counted themselves yet, plus those that had not before.
   */
  lemma {:induction false} AmountCountsStarts(p: Pool, actions: seq<Action>)
    requires p.Valid() && Possible(p, actions)
    ensures var q := After(p, actions);
      && q.Valid() && q.settled == p.settled
      && |q.goroutines| == |p.goroutines| + Requested(actions)
      && q.workers + Count(q.goroutines, IsSpawned) == p.workers + Count(p.goroutines, IsSpawned) + Requested(actions)
    decreases |actions|
  {
    hide Acted, CanAct, Count;
    if actions != [] {
      ActionKeepsValid(p, actions[0]);
      ActionAddsGoroutines(p, actions[0]);
      AmountCountsStarts(Acted(p, actions[0]), actions[1..]);
    }
  }

  /** No goroutine started before the latest Flush ever acts again, so none counts into the new metrics. */
  lemma {:induction false} OldWorkersStaySilent(p: Pool, actions: seq<Action>)
    requires p.Valid() && Possible(p, actions)
    ensures forall k :: 0 <= k < |actions| && actions[k].Act? ==> actions[k].i >= p.settled
    decreases |actions|
  {
    if actions != [] {
      ActionKeepsValid(p, actions[0]);
      ActionAddsGoroutines(p, actions[0]);
      OldWorkersStaySilent(Acted(p, actions[0]), actions[1..]);
      forall k | 0 <= k < |actions| && actions[k].Act? ensures actions[k].i >= p.settled {
        if k > 0 {
          assert actions[k] == actions[1..][k - 1];
        }
      }
    }
  }
}
