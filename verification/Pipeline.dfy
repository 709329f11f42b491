/**
 The whole pipeline as a transition system: the limiter's channel, the goroutine that feeds jobs (the burst
 loop or `load`), the job queues of every client created so far, any number of workers, and the current
 generation of metrics. Creating a client replaces the metrics while workers of earlier clients may still run,
 and those workers then count into the new generation.
 */
module Pipeline {
  import opened Workers
  import opened Wrappers
  import RateLimiter

  const JOB_CAPACITY: nat := 10_000

  datatype Worker = Worker(client: nat, pc: Pc)

  datatype Client = Client(queue: nat, labels: Labels)

  datatype Feeder =
    | Returned                 // between stages
    | Bursting                 // the burst loop
    | Receiving | Sending      // `load`; Sending holds one token

  /** What happened since the latest client was created, and what it found. */
  datatype Stage = Stage(
    chAtStart: nat,            // tokens in the limiter's channel
    carried: nat,              // jobs queued or in flight in earlier clients
    status0: nat,              // workers between the status code and the request total
    error0: nat,               // workers between the error count and the error message
    success0: nat,             // workers between the success count and the status code
    pushed: nat,
    drained: nat,
    burst: nat,                // jobs sent by the burst loop
    completed: nat,            // jobs of this client counted in requestSum
    earlier: nat)              // jobs of earlier clients counted in requestSum

  datatype State = State(
    success: int,              // the configured success status code
    ch: nat,
    feeder: Feeder,
    clients: seq<Client>,      // the last one is current
    workers: seq<Worker>,
    metrics: Metrics,
    stage: Stage)

  datatype Step =
    | New | StartBurst | StartLoad | Finish
    | Push | Drain
    | BurstSend | Take | Send
    | Spawn
    | Work(i: nat, o: Outcome)

  function Current(s: State): int {
    |s.clients| - 1
  }

  predicate CanStep(s: State, e: Step) {
    match e
    case New => s.feeder.Returned?
    case StartBurst => s.feeder.Returned? && s.clients != []
    case StartLoad => s.feeder.Returned? && s.clients != []
    case Finish => s.feeder.Bursting? || s.feeder.Receiving?
    case Push => s.ch < RateLimiter.BUFFER_SIZE
    case Drain => s.ch > 0
    case BurstSend => s.feeder.Bursting? && s.clients != [] && s.clients[Current(s)].queue < JOB_CAPACITY
    case Take => s.feeder.Receiving? && s.ch > 0
    case Send => s.feeder.Sending? && s.clients != [] && s.clients[Current(s)].queue < JOB_CAPACITY
    case Spawn => s.clients != []
    case Work(i, _) =>
      && i < |s.workers| && s.workers[i].client < |s.clients| && Sound(s.workers[i].pc)
      && (s.workers[i].pc.Waiting? ==> s.clients[s.workers[i].client].queue > 0)
  }

  // The workers whose progress the counters must be adjusted for.

  predicate BeforeTotal(w: Worker) { w.pc.CountTotal? }

  predicate BeforeMessage(w: Worker) { w.pc.LabelMessage? || w.pc.CountMessage? }

  function AfterSuccess(success: int): Worker -> bool {
    (w: Worker) => (w.pc.LabelStatus? || w.pc.CountStatus?) && w.pc.o.code == success
  }

  predicate AfterTimeout(w: Worker) { w.pc.CountError? && w.pc.o.error.Some? && w.pc.o.error.value.timeout }

  predicate ErrorCounted(w: Worker) {
    && (w.pc.LabelMessage? || w.pc.CountMessage? || w.pc.CountSuccess? || w.pc.LabelStatus? || w.pc.CountStatus?
        || w.pc.CountTotal?)
    && w.pc.o.error.Some?
  }

  function InFlight(client: int): Worker -> bool {
    (w: Worker) => w.client == client && w.pc.Busy()
  }

  function InFlightBefore(client: int): Worker -> bool {
    (w: Worker) => w.client < client && w.pc.Busy()
  }

  function Queued(clients: seq<Client>): nat {
    if clients == [] then 0 else clients[0].queue + Queued(clients[1..])
  }

  lemma {:induction false} QueuedUpdate(clients: seq<Client>, i: nat, c: Client)
    requires i < |clients|
    ensures Queued(clients[i := c]) == Queued(clients) - clients[i].queue + c.queue
  {
    if i == 0 {
      assert clients[i := c][1..] == clients[1..];
    } else {
      assert clients[i := c][1..] == clients[1..][i - 1 := c];
      QueuedUpdate(clients[1..], i - 1, c);
    }
  }

  /** The latest client's predecessors. */
  function Earlier(s: State): seq<Client> {
    if s.clients == [] then [] else s.clients[..|s.clients| - 1]
  }

  function Enqueued(s: State): State
    requires s.clients != []
  {
    var c := s.clients[Current(s)];
    s.(clients := s.clients[Current(s) := c.(queue := c.queue + 1)])
  }

  /** One action of worker i. */
  function Worked(s: State, i: nat, o: Outcome): State
    requires CanStep(s, Work(i, o))
  {
    var Worker(client, pc) := s.workers[i];
    var c := s.clients[client];
    if pc.Waiting? then
      s.(clients := s.clients[client := c.(queue := c.queue - 1)],
         workers := s.workers[i := Worker(client, Requesting)])
    else
      var done := if pc.CountTotal? then 1 else 0;
      s.(clients := s.clients[client := c.(labels := Labelled(pc, c.labels))],
         workers := s.workers[i := Worker(client, Advance(pc, o, s.success))],
         metrics := Counted(pc, s.metrics),
         stage := if client == Current(s) then s.stage.(completed := s.stage.completed + done)
                  else s.stage.(earlier := s.stage.earlier + done))
  }

  /** New: fresh metrics, and a client with an empty queue and no workers. */
  function Renewed(s: State): State {
    s.(clients := s.clients + [Client(0, NO_LABELS)],
       metrics := FRESH,
       stage := Stage(s.ch,
                      Queued(s.clients) + Count(s.workers, InFlightBefore(|s.clients|)),
                      Count(s.workers, BeforeTotal),
                      Count(s.workers, BeforeMessage),
                      Count(s.workers, AfterSuccess(s.success)),
                      0, 0, 0, 0, 0))
  }

  function Next(s: State, e: Step): State
    requires CanStep(s, e)
  {
    match e
    case New => Renewed(s)
    case StartBurst => s.(feeder := Bursting)
    case StartLoad => s.(feeder := Receiving)
    case Finish => s.(feeder := Returned)
    case Push => s.(ch := s.ch + 1, stage := s.stage.(pushed := s.stage.pushed + 1))
    case Drain => s.(ch := s.ch - 1, stage := s.stage.(drained := s.stage.drained + 1))
    case BurstSend => Enqueued(s).(stage := s.stage.(burst := s.stage.burst + 1))
    case Take => s.(ch := s.ch - 1, feeder := Sending)
    case Send => Enqueued(s).(feeder := Receiving)
    case Spawn => s.(workers := s.workers + [Worker(Current(s), Waiting)])
    case Work(i, o) => Worked(s, i, o)
  }

  ghost function Opening(success: int): State {
    State(success, 0, Returned, [], [], FRESH, Stage(0, 0, 0, 0, 0, 0, 0, 0, 0, 0))
  }

  ghost predicate Feasible(s: State, steps: seq<Step>)
    decreases |steps|
  {
    steps != [] ==> CanStep(s, steps[0]) && Feasible(Next(s, steps[0]), steps[1..])
  }

  ghost function Exec(s: State, steps: seq<Step>): State
    requires Feasible(s, steps)
    decreases |steps|
  {
    if steps == [] then s else Exec(Next(s, steps[0]), steps[1..])
  }

  // ---------------------------------------------------------------------------------------------
  // Well-formed states

  ghost predicate WellFormed(s: State) {
    && (forall i :: 0 <= i < |s.workers| ==> s.workers[i].client < |s.clients| && Sound(s.workers[i].pc))
    && (forall i :: 0 <= i < |s.workers| && s.workers[i].pc.CountSuccess? ==> s.workers[i].pc.o.code == s.success)
    && (s.clients == [] ==> s.feeder.Returned?)
  }

  /** A worker about to count a status code has made sure its client knows the label. */
  ghost predicate Labelling(s: State) {
    forall i :: 0 <= i < |s.workers| && s.workers[i].client < |s.clients| && s.workers[i].pc.CountStatus? ==>
      s.workers[i].pc.o.code in s.clients[s.workers[i].client].labels.codes
  }

  // ---------------------------------------------------------------------------------------------
  // Conservation of tokens and jobs

  function Held(s: State): nat {
    if s.feeder.Sending? then 1 else 0
  }

  /** Where the tokens and jobs of this stage are. */
  ghost predicate TokensConserved(s: State) {
    s.clients != [] ==>
      s.stage.chAtStart + s.stage.pushed + s.stage.burst
        == s.ch + s.stage.drained + Held(s)
           + s.clients[Current(s)].queue + Count(s.workers, InFlight(Current(s))) + s.stage.completed
  }

  /** Where the jobs of earlier clients are. */
  ghost predicate CarriedConserved(s: State) {
    s.stage.carried == Queued(Earlier(s)) + Count(s.workers, InFlightBefore(Current(s))) + s.stage.earlier
  }

  ghost predicate Conserved(s: State) {
    && TokensConserved(s)
    && CarriedConserved(s)
    && s.metrics.total == s.stage.completed + s.stage.earlier
  }

  // ---------------------------------------------------------------------------------------------
  // Agreement of the counters

  ghost predicate StatusAgrees(s: State) {
    |s.metrics.codes| + s.stage.status0 == s.metrics.total + Count(s.workers, BeforeTotal)
  }

  ghost predicate ErrorsAgree(s: State) {
    s.metrics.errors + s.stage.error0 == |s.metrics.messages| + Count(s.workers, BeforeMessage)
  }

  ghost predicate SuccessAgrees(s: State) {
    s.metrics.success + s.stage.success0
      == s.metrics.codes[s.success] + Count(s.workers, AfterSuccess(s.success))
  }

  ghost predicate ErrorsBounded(s: State) {
    && s.metrics.timeouts <= s.metrics.errors + Count(s.workers, AfterTimeout)
    && s.metrics.errors <= s.metrics.total + Count(s.workers, ErrorCounted)
  }

  ghost predicate Agreed(s: State) {
    StatusAgrees(s) && ErrorsAgree(s) && SuccessAgrees(s) && ErrorsBounded(s)
  }

  /** With nothing carried over, the current client knows every label that was counted. */
  ghost predicate LabelsKnown(s: State) {
    s.clients != [] && s.stage.carried == 0 ==>
      forall c :: c in s.metrics.codes ==> c in s.clients[Current(s)].labels.codes
  }

  /** A generation that begins with nothing carried over begins with no worker between two increments. */
  ghost predicate CleanStart(s: State) {
    s.stage.carried == 0 ==> s.stage.status0 == s.stage.error0 == s.stage.success0 == 0
  }

  ghost predicate Good(s: State) {
    WellFormed(s) && Labelling(s) && Conserved(s) && Agreed(s) && LabelsKnown(s) && CleanStart(s)
  }

  lemma OpeningIsGood(success: int)
    ensures Good(Opening(success))
  {
  }

  // Each part of the invariant, step by step.

  lemma WorkKeepsTokens(s: State, i: nat, o: Outcome)
    requires WellFormed(s) && Conserved(s) && CanStep(s, Work(i, o))
    ensures Conserved(Worked(s, i, o))
  {
    var Worker(client, pc) := s.workers[i];
    var c := s.clients[client];
    var t := Worked(s, i, o);
    var w := t.workers[i];
    CountUpdate(s.workers, i, w, InFlight(Current(s)));
    CountUpdate(s.workers, i, w, InFlightBefore(Current(s)));
    if client < Current(s) {
      assert Earlier(t) == Earlier(s)[client := t.clients[client]];
      QueuedUpdate(Earlier(s), client, t.clients[client]);
    } else {
      assert Earlier(t) == Earlier(s);
    }
  }

  lemma WorkKeepsStatus(s: State, i: nat, o: Outcome)
    requires WellFormed(s) && StatusAgrees(s) && CanStep(s, Work(i, o))
    ensures StatusAgrees(Worked(s, i, o))
  {
    var w := Worked(s, i, o).workers[i];
    CountUpdate(s.workers, i, w, BeforeTotal);
  }

  lemma WorkKeepsErrors(s: State, i: nat, o: Outcome)
    requires WellFormed(s) && ErrorsAgree(s) && CanStep(s, Work(i, o))
    ensures ErrorsAgree(Worked(s, i, o))
  {
    var w := Worked(s, i, o).workers[i];
    CountUpdate(s.workers, i, w, BeforeMessage);
  }

  lemma WorkKeepsSuccess(s: State, i: nat, o: Outcome)
    requires WellFormed(s) && SuccessAgrees(s) && CanStep(s, Work(i, o))
    ensures SuccessAgrees(Worked(s, i, o))
  {
    var w := Worked(s, i, o).workers[i];
    CountUpdate(s.workers, i, w, AfterSuccess(s.success));
  }

  lemma WorkKeepsErrorBounds(s: State, i: nat, o: Outcome)
    requires WellFormed(s) && ErrorsBounded(s) && CanStep(s, Work(i, o))
    ensures ErrorsBounded(Worked(s, i, o))
  {
    var w := Worked(s, i, o).workers[i];
    CountUpdate(s.workers, i, w, AfterTimeout);
    CountUpdate(s.workers, i, w, ErrorCounted);
  }

  /** With nothing carried over, no worker of an earlier client is busy. */
  lemma NothingCarried(s: State, i: nat)
    requires CarriedConserved(s) && s.stage.carried == 0 && i < |s.workers|
    ensures s.workers[i].client < Current(s) ==> s.workers[i].pc.Waiting?
  {
    CountNone(s.workers, InFlightBefore(Current(s)));
    assert !InFlightBefore(Current(s))(s.workers[i]);
  }

  lemma WorkKeepsLabels(s: State, i: nat, o: Outcome)
    requires WellFormed(s) && CarriedConserved(s) && Labelling(s) && LabelsKnown(s) && CanStep(s, Work(i, o))
    ensures var t := Worked(s, i, o); WellFormed(t) && Labelling(t) && LabelsKnown(t)
  {
    var Worker(client, pc) := s.workers[i];
    if pc.Busy() {
      AdvanceIsSound(pc, o, s.success);
    }
    if s.stage.carried == 0 {
      NothingCarried(s, i);
    }
  }

  lemma NewIsClean(s: State)
    requires WellFormed(s)
    ensures CleanStart(Renewed(s))
  {
    if Renewed(s).stage.carried == 0 {
      CountNone(s.workers, InFlightBefore(|s.clients|));
      forall i | 0 <= i < |s.workers| ensures s.workers[i].pc.Waiting? {
        assert !InFlightBefore(|s.clients|)(s.workers[i]);
      }
      CountNone(s.workers, BeforeTotal);
      CountNone(s.workers, BeforeMessage);
      CountNone(s.workers, AfterSuccess(s.success));
    }
  }

  lemma NewKeepsGood(s: State)
    requires WellFormed(s) && Labelling(s) && s.feeder.Returned?
    ensures var t := Renewed(s);
      && Good(t)
      && t.workers == s.workers
      && t.clients[..|s.clients|] == s.clients && |t.clients| == |s.clients| + 1
      && t.ch == s.ch && t.feeder == s.feeder && t.success == s.success
  {
    var t := Renewed(s);
    assert Earlier(t) == s.clients;
    forall i | 0 <= i < |t.workers| ensures !InFlight(Current(t))(t.workers[i]) {
    }
    CountNone(t.workers, InFlight(Current(t)));
    NewIsClean(s);
  }

  lemma SpawnKeepsCounts(s: State, p: Worker -> bool)
    requires s.clients != [] && !p(Worker(Current(s), Waiting))
    ensures Count(Next(s, Spawn).workers, p) == Count(s.workers, p)
  {
    CountAppend(s.workers, [Worker(Current(s), Waiting)], p);
    assert [Worker(Current(s), Waiting)][1..] == [];
  }

  lemma SpawnKeepsGood(s: State)
    requires Good(s) && CanStep(s, Spawn)
    ensures Good(Next(s, Spawn))
  {
    SpawnKeepsCounts(s, InFlight(Current(s)));
    SpawnKeepsCounts(s, InFlightBefore(Current(s)));
    SpawnKeepsCounts(s, BeforeTotal);
    SpawnKeepsCounts(s, BeforeMessage);
    SpawnKeepsCounts(s, AfterSuccess(s.success));
    SpawnKeepsCounts(s, AfterTimeout);
    SpawnKeepsCounts(s, ErrorCounted);
  }

  lemma EnqueueKeeps(s: State)
    requires s.clients != []
    ensures var t := Enqueued(s);
      && Earlier(t) == Earlier(s)
      && |t.clients| == |s.clients|
      && t.clients[Current(s)].queue == s.clients[Current(s)].queue + 1
      && (WellFormed(s) ==> WellFormed(t))
      && (Labelling(s) ==> Labelling(t))
      && (LabelsKnown(s) ==> LabelsKnown(t))
  {
  }

  lemma WorkIsClean(s: State, i: nat, o: Outcome)
    requires CleanStart(s) && CanStep(s, Work(i, o))
    ensures CleanStart(Worked(s, i, o))
  {
  }

  lemma WorkKeepsGood(s: State, i: nat, o: Outcome)
    requires Good(s) && CanStep(s, Work(i, o))
    ensures Good(Worked(s, i, o))
  {
    hide Worked, Count, Queued;
    WorkKeepsTokens(s, i, o);
    WorkKeepsStatus(s, i, o);
    WorkKeepsErrors(s, i, o);
    WorkKeepsSuccess(s, i, o);
    WorkKeepsErrorBounds(s, i, o);
    WorkKeepsLabels(s, i, o);
    WorkIsClean(s, i, o);
  }

  lemma StepKeepsGood(s: State, e: Step)
    requires Good(s) && CanStep(s, e)
    ensures Good(Next(s, e))
  {
    hide Worked, Renewed, Count, Queued;
    match e {
      case New => NewKeepsGood(s);
      case Spawn => SpawnKeepsGood(s);
      case Work(i, o) => WorkKeepsGood(s, i, o);
      case BurstSend => EnqueueKeeps(s);
      case Send => EnqueueKeeps(s);
      case _ =>
    }
  }

  lemma {:induction false} RunKeepsGood(s: State, steps: seq<Step>)
    requires Good(s) && Feasible(s, steps)
    ensures Good(Exec(s, steps))
    decreases |steps|
  {
    hide Good, CanStep, Next;
    if steps != [] {
      StepKeepsGood(s, steps[0]);
      RunKeepsGood(Next(s, steps[0]), steps[1..]);
    }
  }

  // ---------------------------------------------------------------------------------------------
  // The theorems

  /**
   In every interleaving of every sequence of stages: each token pushed in this stage or found in the channel,
   and each job of the burst loop, is in exactly one place; and requestSum counts the completed jobs of this
   client and of those that earlier clients still had when it was created.
   */
  lemma EndToEndConservation(success: int, steps: seq<Step>)
    requires Feasible(Opening(success), steps) && Exec(Opening(success), steps).clients != []
    ensures var s := Exec(Opening(success), steps);
      && s.stage.chAtStart + s.stage.pushed + s.stage.burst
           == s.ch + s.stage.drained + Held(s) + s.clients[Current(s)].queue
              + Count(s.workers, InFlight(Current(s))) + s.stage.completed
      && s.metrics.total + Queued(Earlier(s)) + Count(s.workers, InFlightBefore(Current(s)))
           == s.stage.completed + s.stage.carried
      && s.metrics.total <= s.stage.chAtStart + s.stage.pushed + s.stage.burst + s.stage.carried
  {
    hide Feasible, Exec;
    OpeningIsGood(success);
    RunKeepsGood(Opening(success), steps);
  }

  lemma {:induction false} SuccessNeverChanges(s: State, steps: seq<Step>)
    requires Feasible(s, steps)
    ensures Exec(s, steps).success == s.success
    decreases |steps|
  {
    if steps != [] {
      SuccessNeverChanges(Next(s, steps[0]), steps[1..]);
    }
  }

  /**
   In every interleaving of any number of workers, each difference of counters is the number of workers
   between the two increments, less those that were between them when the generation began.
   */
  lemma CountersAgree(success: int, steps: seq<Step>)
    requires Feasible(Opening(success), steps)
    ensures var s := Exec(Opening(success), steps);
      var m := s.metrics;
      && |m.codes| - m.total == Count(s.workers, BeforeTotal) - s.stage.status0
      && m.errors - |m.messages| == Count(s.workers, BeforeMessage) - s.stage.error0
      && m.success - m.codes[success] == Count(s.workers, AfterSuccess(success)) - s.stage.success0
      && m.timeouts <= m.errors + Count(s.workers, AfterTimeout)
      && m.errors <= m.total + Count(s.workers, ErrorCounted)
  {
    hide Feasible, Exec;
    OpeningIsGood(success);
    RunKeepsGood(Opening(success), steps);
    SuccessNeverChanges(Opening(success), steps);
  }

  ghost predicate AllWaiting(s: State) {
    forall i :: 0 <= i < |s.workers| ==> s.workers[i].pc.Waiting?
  }

  lemma WaitingCountsNothing(s: State, p: Worker -> bool)
    requires AllWaiting(s) && forall w: Worker :: w.pc.Waiting? ==> !p(w)
    ensures Count(s.workers, p) == 0
  {
    CountNone(s.workers, p);
  }

  /** When the generation began with no job in flight and all workers are idle, the counters are equal. */
  lemma IdleCountersEqual(success: int, steps: seq<Step>)
    requires Feasible(Opening(success), steps)
    requires AllWaiting(Exec(Opening(success), steps))
    requires Exec(Opening(success), steps).stage.carried == 0
    ensures var m := Exec(Opening(success), steps).metrics;
      && |m.codes| == m.total
      && m.errors == |m.messages|
      && m.success == m.codes[success]
      && m.timeouts <= m.errors <= m.total
  {
    hide Feasible, Exec;
    var s := Exec(Opening(success), steps);
    OpeningIsGood(success);
    RunKeepsGood(Opening(success), steps);
    CountersAgree(success, steps);
    WaitingCountsNothing(s, BeforeTotal);
    WaitingCountsNothing(s, BeforeMessage);
    WaitingCountsNothing(s, AfterSuccess(success));
    WaitingCountsNothing(s, AfterTimeout);
    WaitingCountsNothing(s, ErrorCounted);
  }

  // What the stage record refers to.

  ghost predicate WithinStage(steps: seq<Step>) {
    forall i :: 0 <= i < |steps| ==> !steps[i].New?
  }

  /** Step e is the requestSum.Inc of a worker, of the current client or of an earlier one. */
  ghost predicate Finishes(s: State, e: Step, current: bool) {
    && e.Work? && e.i < |s.workers|
    && s.workers[e.i].pc.CountTotal?
    && (s.workers[e.i].client == Current(s)) == current
  }

  ghost function Finished(s: State, steps: seq<Step>, current: bool): nat
    requires Feasible(s, steps)
    decreases |steps|
  {
    if steps == [] then 0
    else (if Finishes(s, steps[0], current) then 1 else 0) + Finished(Next(s, steps[0]), steps[1..], current)
  }

  /** The stage record is what New found and counts of the steps since. */
  lemma {:induction false} StageAnchors(s: State, steps: seq<Step>)
    requires Feasible(s, steps) && WithinStage(steps)
    ensures var t := Exec(s, steps);
      && t.stage.chAtStart == s.stage.chAtStart && t.stage.carried == s.stage.carried
      && t.stage.status0 == s.stage.status0 && t.stage.error0 == s.stage.error0
      && t.stage.success0 == s.stage.success0
      && t.stage.pushed == s.stage.pushed + Count(steps, (e: Step) => e.Push?)
      && t.stage.drained == s.stage.drained + Count(steps, (e: Step) => e.Drain?)
      && t.stage.burst == s.stage.burst + Count(steps, (e: Step) => e.BurstSend?)
      && t.stage.completed == s.stage.completed + Finished(s, steps, true)
      && t.stage.earlier == s.stage.earlier + Finished(s, steps, false)
    decreases |steps|
  {
    if steps != [] {
      assert !steps[0].New?;
      assert WithinStage(steps[1..]);
      StageAnchors(Next(s, steps[0]), steps[1..]);
    }
  }
}
