/**
 What the state of the pipeline is in terms of the steps of a whole run, across every New: where all jobs went, which
 client each worker serves, and what each counter says about the requests that ended.
 */
module PipelineHistory {
  import opened Wrappers
  import opened Workers
  import opened Pipeline
  import RateLimiter

  function One(b: bool): nat {
    if b then 1 else 0
  }

  predicate IsNew(e: Step) { e.New? }
  predicate IsSpawn(e: Step) { e.Spawn? }
  predicate IsPush(e: Step) { e.Push? }
  predicate IsDrain(e: Step) { e.Drain? }
  predicate IsTake(e: Step) { e.Take? }
  predicate IsSend(e: Step) { e.Send? }
  predicate IsStart(e: Step) { e.StartBurst? || e.StartLoad? }
  predicate IsFinish(e: Step) { e.Finish? }
  predicate IsJob(e: Step) { e.BurstSend? || e.Send? }
  predicate IsBusy(w: Worker) { w.pc.Busy() }

  // ---------------------------------------------------------------------------------------------
  // Where jobs and tokens went

  /** Step e is the requestSum.Inc of a worker of any client. */
  ghost predicate Serves(s: State, e: Step) {
    e.Work? && e.i < |s.workers| && s.workers[e.i].pc.CountTotal?
  }

  ghost function Served(s: State, steps: seq<Step>): nat
    requires Feasible(s, steps)
    decreases |steps|
  {
    if steps == [] then 0
    else One(Serves(s, steps[0])) + Served(Next(s, steps[0]), steps[1..])
  }

  /** Jobs that no worker has counted in requestSum yet. */
  ghost function Open(s: State): nat {
    Queued(s.clients) + Count(s.workers, IsBusy)
  }

  lemma {:induction false} QueuedAppend(clients: seq<Client>, c: Client)
    ensures Queued(clients + [c]) == Queued(clients) + c.queue
  {
    if clients == [] {
      assert clients + [c] == [c];
    } else {
      assert (clients + [c])[1..] == clients[1..] + [c];
      QueuedAppend(clients[1..], c);
    }
  }

  lemma StepKeepsJobs(s: State, e: Step)
    requires CanStep(s, e)
    ensures Open(Next(s, e)) + One(Serves(s, e)) == Open(s) + One(IsJob(e))
  {
    var t := Next(s, e);
    match e {
      case New => QueuedAppend(s.clients, Client(0, NO_LABELS));
      case BurstSend => QueuedUpdate(s.clients, Current(s), t.clients[Current(s)]);
      case Send => QueuedUpdate(s.clients, Current(s), t.clients[Current(s)]);
      case Spawn => SpawnKeepsCounts(s, IsBusy);
      case Work(i, o) =>
        QueuedUpdate(s.clients, s.workers[i].client, t.clients[s.workers[i].client]);
        CountUpdate(s.workers, i, t.workers[i], IsBusy);
      case _ =>
    }
  }

  lemma StepMovesTokens(s: State, e: Step)
    requires CanStep(s, e)
    ensures var t := Next(s, e);
      && t.ch + One(IsDrain(e)) + One(IsTake(e)) == s.ch + One(IsPush(e))
      && Held(t) + One(IsSend(e)) == Held(s) + One(IsTake(e))
      && One(!t.feeder.Returned?) + One(IsFinish(e)) == One(!s.feeder.Returned?) + One(IsStart(e))
      && |t.workers| == |s.workers| + One(IsSpawn(e))
      && |t.clients| == |s.clients| + One(IsNew(e))
  {
    hide Count, Queued;
  }

  /** From any state on: jobs, tokens, workers and clients are counts of steps, whatever stages the run goes through. */
  lemma {:induction false} RunAccounted(s: State, steps: seq<Step>)
    requires Feasible(s, steps)
    ensures var t := Exec(s, steps);
      && Open(s) + Count(steps, IsJob) == Open(t) + Served(s, steps)
      && s.ch + Count(steps, IsPush) == t.ch + Count(steps, IsDrain) + Count(steps, IsTake)
      && Held(s) + Count(steps, IsTake) == Held(t) + Count(steps, IsSend)
      && One(!s.feeder.Returned?) + Count(steps, IsStart) == One(!t.feeder.Returned?) + Count(steps, IsFinish)
      && |t.workers| == |s.workers| + Count(steps, IsSpawn)
      && |t.clients| == |s.clients| + Count(steps, IsNew)
    decreases |steps|
  {
    hide CanStep, Next, Open, Serves, Held;
    if steps != [] {
      StepKeepsJobs(s, steps[0]);
      StepMovesTokens(s, steps[0]);
      RunAccounted(Next(s, steps[0]), steps[1..]);
    }
  }

  /**
   In every run, across every New: each job ever sent is queued with some client, in the hands of a worker of some
   client, or was counted by a requestSum.Inc; each token ever pushed is in the channel, was drained, is held by `load`
   or was sent on as a job; a feeding loop that was started and has not ended is under way; and no worker or client ever
   disappears.
   */
  lemma WholeRunAccounted(success: int, steps: seq<Step>)
    requires Feasible(Opening(success), steps)
    ensures var s := Exec(Opening(success), steps);
      && Count(steps, IsJob) == Queued(s.clients) + Count(s.workers, IsBusy) + Served(Opening(success), steps)
      && Count(steps, IsPush) == s.ch + Count(steps, IsDrain) + Held(s) + Count(steps, IsSend)
      && Count(steps, IsStart) == Count(steps, IsFinish) + One(!s.feeder.Returned?)
      && |s.workers| == Count(steps, IsSpawn)
      && |s.clients| == Count(steps, IsNew)
  {
    hide Feasible, Exec;
    RunAccounted(Opening(success), steps);
  }

  // ---------------------------------------------------------------------------------------------
  // One client's jobs

  ghost function QueueOf(s: State, c: nat): nat {
    if c < |s.clients| then s.clients[c].queue else 0
  }

  ghost predicate SendsTo(s: State, e: Step, c: nat) {
    IsJob(e) && Current(s) == c
  }

  ghost predicate ServesFor(s: State, e: Step, c: nat) {
    Serves(s, e) && s.workers[e.i].client == c
  }

  ghost function SentTo(s: State, steps: seq<Step>, c: nat): nat
    requires Feasible(s, steps)
    decreases |steps|
  {
    if steps == [] then 0
    else One(SendsTo(s, steps[0], c)) + SentTo(Next(s, steps[0]), steps[1..], c)
  }

  ghost function ServedFor(s: State, steps: seq<Step>, c: nat): nat
    requires Feasible(s, steps)
    decreases |steps|
  {
    if steps == [] then 0
    else One(ServesFor(s, steps[0], c)) + ServedFor(Next(s, steps[0]), steps[1..], c)
  }

  lemma StepKeepsClientJobs(s: State, e: Step, c: nat)
    requires WellFormed(s) && CanStep(s, e)
    ensures var t := Next(s, e);
      QueueOf(t, c) + Count(t.workers, InFlight(c)) + One(ServesFor(s, e, c))
        == QueueOf(s, c) + Count(s.workers, InFlight(c)) + One(SendsTo(s, e, c))
  {
    match e {
      case Spawn => SpawnKeepsCounts(s, InFlight(c));
      case Work(i, o) => CountUpdate(s.workers, i, Next(s, e).workers[i], InFlight(c));
      case _ =>
    }
  }

  /** Every client's jobs, those of earlier clients included, are served by its own workers or still with it. */
  lemma {:induction false} ClientAccounted(s: State, steps: seq<Step>, c: nat)
    requires Good(s) && Feasible(s, steps)
    ensures var t := Exec(s, steps);
      QueueOf(s, c) + Count(s.workers, InFlight(c)) + SentTo(s, steps, c)
        == QueueOf(t, c) + Count(t.workers, InFlight(c)) + ServedFor(s, steps, c)
    decreases |steps|
  {
    hide CanStep, Next, WellFormed, Labelling, Conserved, Agreed, LabelsKnown, CleanStart, QueueOf, SendsTo, ServesFor,
         InFlight;
    if steps != [] {
      StepKeepsGood(s, steps[0]);
      StepKeepsClientJobs(s, steps[0], c);
      ClientAccounted(Next(s, steps[0]), steps[1..], c);
    }
  }

  lemma StepKeepsWorkers(s: State, e: Step)
    requires CanStep(s, e)
    ensures var t := Next(s, e);
      && |t.workers| == |s.workers| + One(IsSpawn(e))
      && |t.clients| == |s.clients| + One(IsNew(e))
      && (forall i :: 0 <= i < |s.workers| ==> t.workers[i].client == s.workers[i].client)
      && (IsSpawn(e) ==> t.workers[|s.workers|] == Worker(|s.clients| - 1, Waiting))
  {
    hide Count, Queued, Counted, Labelled;
  }

  /** A worker serves the client that was the latest when it was started, and no other, ever after. */
  lemma {:induction false} WorkersServeTheirClient(s: State, steps: seq<Step>)
    requires Feasible(s, steps)
    ensures var t := Exec(s, steps);
      && |t.workers| == |s.workers| + Count(steps, IsSpawn)
      && (forall i :: 0 <= i < |s.workers| ==> t.workers[i].client == s.workers[i].client)
      && (forall k :: 0 <= k < |steps| && IsSpawn(steps[k]) ==>
            var w := |s.workers| + Count(steps[..k], IsSpawn);
            w < |t.workers| && t.workers[w].client == |s.clients| + Count(steps[..k], IsNew) - 1)
    decreases |steps|
  {
    hide CanStep, Next;
    if steps != [] {
      var u, t, rest := Next(s, steps[0]), Exec(s, steps), steps[1..];
      StepKeepsWorkers(s, steps[0]);
      WorkersServeTheirClient(u, rest);
      forall k | 0 <= k < |steps| && IsSpawn(steps[k])
        ensures var w := |s.workers| + Count(steps[..k], IsSpawn);
          w < |t.workers| && t.workers[w].client == |s.clients| + Count(steps[..k], IsNew) - 1
      {
        if k > 0 {
          assert steps[..k][1..] == rest[..k - 1] && rest[k - 1] == steps[k];
        }
      }
    }
  }

  /** In every run a worker is blocked exactly when it waits at its own client's empty queue. */
  lemma WorkerBlockedIff(success: int, steps: seq<Step>, i: nat, o: Outcome)
    requires Feasible(Opening(success), steps) && i < |Exec(Opening(success), steps).workers|
    ensures var s := Exec(Opening(success), steps);
      var w := s.workers[i];
      && w.client < |s.clients|
      && (!CanStep(s, Work(i, o)) <==> w.pc.Waiting? && s.clients[w.client].queue == 0)
  {
    hide Feasible, Exec;
    OpeningIsGood(success);
    RunKeepsGood(Opening(success), steps);
  }

  /** The capacities of the two channels are kept. */
  ghost predicate WithinCapacity(s: State) {
    s.ch <= RateLimiter.BUFFER_SIZE && forall c :: 0 <= c < |s.clients| ==> s.clients[c].queue <= JOB_CAPACITY
  }

  lemma {:induction false} CapacitiesKept(s: State, steps: seq<Step>)
    requires WithinCapacity(s) && Feasible(s, steps)
    ensures WithinCapacity(Exec(s, steps))
    decreases |steps|
  {
    hide Count, Queued, Counted, Labelled;
    if steps != [] {
      CapacitiesKept(Next(s, steps[0]), steps[1..]);
    }
  }

  // ---------------------------------------------------------------------------------------------
  // What the counters say about requests

  datatype Counter = Timeouts | Errors | Messages(m: string) | Success | Codes(c: int) | Total

  function Value(k: Counter, m: Metrics): nat {
    match k
    case Timeouts => m.timeouts
    case Errors => m.errors
    case Messages(text) => m.messages[text]
    case Success => m.success
    case Codes(c) => m.codes[c]
    case Total => m.total
  }

  /** The counter is for requests that end like this. */
  predicate Covers(k: Counter, o: Outcome, success: int) {
    match k
    case Timeouts => o.error.Some? && o.error.value.timeout
    case Errors => o.error.Some?
    case Messages(text) => o.error.Some? && o.error.value.message == text
    case Success => o.code == success
    case Codes(c) => o.code == c
    case Total => true
  }

  // Where a worker is between the end of a request and the increment of each counter.

  predicate ErrorAhead(pc: Pc) { pc.CountTimeout? || pc.CountError? }

  predicate MessageAhead(pc: Pc) { ErrorAhead(pc) || pc.LabelMessage? || pc.CountMessage? }

  predicate SuccessAhead(pc: Pc) { MessageAhead(pc) || pc.CountSuccess? }

  predicate StatusAhead(pc: Pc) { SuccessAhead(pc) || pc.LabelStatus? || pc.CountStatus? }

  /** The worker's request has ended and is still to be counted by k. */
  function Owing(k: Counter, success: int): Worker -> bool {
    (w: Worker) =>
      match k
      case Timeouts => w.pc.CountTimeout?
      case Errors => ErrorAhead(w.pc)
      case Messages(text) => MessageAhead(w.pc) && Covers(k, w.pc.o, success)
      case Success => SuccessAhead(w.pc) && Covers(k, w.pc.o, success)
      case Codes(_) => StatusAhead(w.pc) && Covers(k, w.pc.o, success)
      case Total => StatusAhead(w.pc) || w.pc.CountTotal?
  }

  /** Step e ends a request in a way that k covers. */
  ghost predicate Ends(s: State, e: Step, k: Counter) {
    e.Work? && e.i < |s.workers| && s.workers[e.i].pc.Requesting? && Covers(k, e.o, s.success)
  }

  ghost function Ended(s: State, steps: seq<Step>, k: Counter): nat
    requires Feasible(s, steps)
    decreases |steps|
  {
    if steps == [] then 0
    else One(Ends(s, steps[0], k)) + Ended(Next(s, steps[0]), steps[1..], k)
  }

  /** One action of a worker that has a job. */
  lemma ActionTallies(k: Counter, pc: Pc, o: Outcome, m: Metrics, success: int, client: nat)
    requires pc.Busy() && Sound(pc) && (pc.CountSuccess? ==> pc.o.code == success)
    ensures Value(k, Counted(pc, m)) + One(Owing(k, success)(Worker(client, Advance(pc, o, success))))
         == Value(k, m) + One(Owing(k, success)(Worker(client, pc))) + One(pc.Requesting? && Covers(k, o, success))
  {
  }

  lemma StepTallies(s: State, e: Step, k: Counter)
    requires WellFormed(s) && CanStep(s, e) && !e.New?
    ensures var t := Next(s, e);
      && t.success == s.success
      && Value(k, t.metrics) + Count(t.workers, Owing(k, s.success))
           == Value(k, s.metrics) + Count(s.workers, Owing(k, s.success)) + One(Ends(s, e, k))
  {
    match e {
      case Spawn => SpawnKeepsCounts(s, Owing(k, s.success));
      case Work(i, o) =>
        var w := s.workers[i];
        CountUpdate(s.workers, i, Next(s, e).workers[i], Owing(k, s.success));
        if w.pc.Busy() {
          ActionTallies(k, w.pc, o, s.metrics, s.success, w.client);
        }
      case _ =>
    }
  }

  /** In every interleaving of a generation each counter grows by the requests that end, less those not yet counted. */
  lemma {:induction false} CountersTally(s: State, steps: seq<Step>, k: Counter)
    requires Good(s) && Feasible(s, steps) && WithinStage(steps)
    ensures var t := Exec(s, steps);
      && t.success == s.success
      && Value(k, t.metrics) + Count(t.workers, Owing(k, s.success))
           == Value(k, s.metrics) + Count(s.workers, Owing(k, s.success)) + Ended(s, steps, k)
    decreases |steps|
  {
    hide CanStep, Next, WellFormed, Labelling, Conserved, Agreed, LabelsKnown, CleanStart, Value, Ends, Owing;
    if steps != [] {
      assert !steps[0].New?;
      assert WithinStage(steps[1..]);
      StepKeepsGood(s, steps[0]);
      StepTallies(s, steps[0], k);
      CountersTally(Next(s, steps[0]), steps[1..], k);
    }
  }

  /**
   A generation from New on: timeouts, errors, each error message, successes, each status code and requestSum are
   exactly the numbers of requests that ended so, whoever's workers made them, less those still to be counted, plus
   those that had ended and were still to be counted at New.
   */
  lemma GenerationTallies(u: State, steps: seq<Step>, k: Counter)
    requires Good(u) && CanStep(u, New)
    requires Feasible(Next(u, New), steps) && WithinStage(steps)
    ensures var t := Exec(Next(u, New), steps);
      Value(k, t.metrics) + Count(t.workers, Owing(k, u.success))
        == Count(u.workers, Owing(k, u.success)) + Ended(Next(u, New), steps, k)
  {
    hide Feasible, Exec, Ended, Owing;
    StepKeepsGood(u, New);
    CountersTally(Next(u, New), steps, k);
  }

  /** With idle workers at New and now, each counter is the number of requests that ended so. */
  lemma IdleTallies(u: State, steps: seq<Step>, k: Counter)
    requires Good(u) && CanStep(u, New) && AllWaiting(u)
    requires Feasible(Next(u, New), steps) && WithinStage(steps) && AllWaiting(Exec(Next(u, New), steps))
    ensures Value(k, Exec(Next(u, New), steps).metrics) == Ended(Next(u, New), steps, k)
  {
    hide Feasible, Exec, Ended;
    GenerationTallies(u, steps, k);
    WaitingCountsNothing(u, Owing(k, u.success));
    WaitingCountsNothing(Exec(Next(u, New), steps), Owing(k, u.success));
  }

  // ---------------------------------------------------------------------------------------------
  // What the label maps hold

  /** The worker has made label c known and is about to count it. */
  function AtStatus(c: int): Worker -> bool {
    (w: Worker) => w.pc.CountStatus? && w.pc.o.code == c
  }

  function AtMessage(m: string): Worker -> bool {
    (w: Worker) => w.pc.CountMessage? && w.pc.o.error.Some? && w.pc.o.error.value.message == m
  }

  ghost predicate CodesExact(s: State, c: int) {
    s.clients != [] && s.stage.carried == 0 ==>
      (c in s.clients[Current(s)].labels.codes <==> s.metrics.codes[c] + Count(s.workers, AtStatus(c)) > 0)
  }

  ghost predicate MessagesExact(s: State, m: string) {
    s.clients != [] && s.stage.carried == 0 ==>
      (m in s.clients[Current(s)].labels.messages <==> s.metrics.messages[m] + Count(s.workers, AtMessage(m)) > 0)
  }

  lemma NewHasNoLabels(s: State, c: int, m: string)
    requires WellFormed(s) && CanStep(s, New)
    ensures CodesExact(Next(s, New), c) && MessagesExact(Next(s, New), m)
  {
    if Next(s, New).stage.carried == 0 {
      CountNone(s.workers, InFlightBefore(|s.clients|));
      forall i | 0 <= i < |s.workers| ensures s.workers[i].pc.Waiting? {
        assert !InFlightBefore(|s.clients|)(s.workers[i]);
      }
      WaitingCountsNothing(s, AtStatus(c));
      WaitingCountsNothing(s, AtMessage(m));
    }
  }

  lemma WorkKeepsLabelsExact(s: State, i: nat, o: Outcome, c: int, m: string)
    requires WellFormed(s) && CarriedConserved(s) && CanStep(s, Work(i, o)) && CodesExact(s, c) && MessagesExact(s, m)
    ensures var t := Worked(s, i, o); CodesExact(t, c) && MessagesExact(t, m)
  {
    var w := Worked(s, i, o).workers[i];
    CountUpdate(s.workers, i, w, AtStatus(c));
    CountUpdate(s.workers, i, w, AtMessage(m));
    if s.stage.carried == 0 {
      NothingCarried(s, i);
    }
  }

  lemma StepKeepsLabelsExact(s: State, e: Step, c: int, m: string)
    requires Good(s) && CanStep(s, e) && CodesExact(s, c) && MessagesExact(s, m)
    ensures var t := Next(s, e); CodesExact(t, c) && MessagesExact(t, m)
  {
    hide Worked, Renewed, Queued, Count;
    match e {
      case New => NewHasNoLabels(s, c, m);
      case Work(i, o) => WorkKeepsLabelsExact(s, i, o, c, m);
      case Spawn =>
        SpawnKeepsCounts(s, AtStatus(c));
        SpawnKeepsCounts(s, AtMessage(m));
      case _ =>
    }
  }

  lemma {:induction false} RunKeepsLabelsExact(s: State, steps: seq<Step>, c: int, m: string)
    requires Good(s) && Feasible(s, steps) && CodesExact(s, c) && MessagesExact(s, m)
    ensures var t := Exec(s, steps); CodesExact(t, c) && MessagesExact(t, m)
    decreases |steps|
  {
    hide Good, CanStep, Next, CodesExact, MessagesExact;
    if steps != [] {
      StepKeepsGood(s, steps[0]);
      StepKeepsLabelsExact(s, steps[0], c, m);
      RunKeepsLabelsExact(Next(s, steps[0]), steps[1..], c, m);
    }
  }

  /**
   In every run, in a generation with nothing carried over, the current client knows exactly the status codes and error
   messages that have been counted or are about to be.
   */
  lemma LabelsAreCounted(success: int, steps: seq<Step>, c: int, m: string)
    requires Feasible(Opening(success), steps)
    requires var s := Exec(Opening(success), steps); s.clients != [] && s.stage.carried == 0
    ensures var s := Exec(Opening(success), steps);
      var l := s.clients[Current(s)].labels;
      && (c in l.codes <==> s.metrics.codes[c] + Count(s.workers, AtStatus(c)) > 0)
      && (m in l.messages <==> s.metrics.messages[m] + Count(s.workers, AtMessage(m)) > 0)
  {
    hide Feasible, Exec;
    OpeningIsGood(success);
    RunKeepsLabelsExact(Opening(success), steps, c, m);
  }
}
