/**
 The limiter as a small-step transition system. The producer goroutine, one goroutine that controls the
 limiter (SetLimit and Stop), the ticker and the consuming `load` loop take atomic steps in any order.
 A step is one access to shared state: a channel operation, a critical section, or a read of the clock.
 */
module LimiterProtocol {
  import opened Numbers
  import opened RateLimiter
  import opened Wrappers

  /** Where the producer goroutine is inside its loop. */
  datatype Producer =
    | Selecting                                        // at the select
    | Woken                                            // got a tick, about to read the clock
    | Locking(now: real)                               // about to compute tokens under the lock
    | Counting(now: real, tokens: real, born: nat)     // about to read len(ch)
    | Pushing(now: real, left: nat, born: nat)         // pushes left; about to publish lastEvent if none
    | Exited

  /** Where the controlling goroutine is inside SetLimit or Stop. */
  datatype Control =
    | Free
    | Zeroing(n: real)
    | Draining(n: real)
    | Restoring(n: real)
    | StoppingTicker
    | Handshaking
    | Clearing
    | Stopped

  datatype Load = Receiving | Sending | Returned

  /**
   What happened since the latest setLimit (an epoch). A batch is stale when its tokens were computed in
   an earlier epoch; `born` is the epoch a batch belongs to.
   */
  datatype Book = Book(
    start: real,          // time of the setLimit
    carried: real,        // surplus the epoch starts with: that of the stale batch, if there is one
    base: real,           // `now` of the stale batch once it is done, else start
    stale: nat,           // pushes the stale batch had left at the setLimit
    staleBatches: nat,    // stale batches that published lastEvent in this epoch
    pushed: nat,          // tokens pushed in this epoch
    forfeited: nat)       // credit given up to old tokens in the channel, by batches of this epoch

  datatype State = State(
    clock: real,
    ticking: bool,        // the ticker is running
    tick: bool,           // the ticker's one-slot channel is full
    ch: nat,
    limit: real,
    lastEvent: real,
    surplus: real,
    producer: Producer,
    control: Control,
    load: Load,
    cancelled: bool,      // the context of the current load loop is cancelled
    jobs: nat,            // jobs load has sent
    epoch: nat,           // calls of setLimit so far
    book: Book)

  datatype Step =
    | Elapse(dt: real) | Fire
    | TakeTick | ReadClock | Compute | Measure | Push | Publish
    | CallSetLimit(n: real) | StoreZero | DrainOne | DrainDone | StoreNew
    | CallStop | StopTicker | Handshake | ClearOne | ClearDone
    | LoadTake | LoadSend | Cancel | LoadReturn | LoadStart

  ghost predicate CanStep(s: State, e: Step) {
    match e
    case Elapse(dt) => dt >= 0.0
    case Fire => s.ticking && !s.tick
    case TakeTick => s.producer.Selecting? && s.tick
    case ReadClock => s.producer.Woken?
    case Compute => s.producer.Locking?
    case Measure => s.producer.Counting?
    case Push => s.producer.Pushing? && s.producer.left > 0 && s.ch < BUFFER_SIZE
    case Publish => s.producer.Pushing? && s.producer.left == 0
    case CallSetLimit(_) => s.control.Free?
    case StoreZero => s.control.Zeroing?
    case DrainOne => s.control.Draining? && s.ch > 0
    case DrainDone => s.control.Draining? && s.ch == 0
    case StoreNew => s.control.Restoring?
    case CallStop => s.control.Free?
    case StopTicker => s.control.StoppingTicker?
    case Handshake => s.control.Handshaking? && s.producer.Selecting?
    case ClearOne => s.control.Clearing? && s.ch > 0
    case ClearDone => s.control.Clearing? && s.ch == 0
    case LoadTake => s.load.Receiving? && s.ch > 0
    case LoadSend => s.load.Sending?
    case Cancel => s.control.Free? || s.control.Stopped?
    case LoadReturn => s.load.Receiving? && s.cancelled
    case LoadStart => s.load.Returned? && s.control.Free?
  }

  /** setLimit: the critical section that opens a new epoch. */
  ghost function Stored(s: State, n: real): State {
    s.(limit := n,
       lastEvent := s.clock,
       epoch := s.epoch + 1,
       book := Book(s.clock, s.surplus, s.clock, if s.producer.Pushing? then s.producer.left else 0, 0, 0, 0))
  }

  /** The producer reads len(ch), decides whether there is a batch, and if so sets its surplus. */
  ghost function Measured(s: State): State
    requires s.producer.Counting?
  {
    var Counting(now, tokens, born) := s.producer;
    var n := Trunc(tokens) - s.ch;
    if n <= 0 then s.(producer := Selecting)
    else
      var surplus := tokens - Trunc(tokens) as real;
      s.(surplus := surplus,
         producer := Pushing(now, n, born),
         book := if born == s.epoch then s.book.(forfeited := s.book.forfeited + s.ch)
                 else s.book.(stale := n, carried := surplus))
  }

  ghost function Published(s: State): State
    requires s.producer.Pushing?
  {
    var Pushing(now, _, born) := s.producer;
    s.(lastEvent := now,
       producer := Selecting,
       book := if born == s.epoch then s.book
               else s.book.(base := now, staleBatches := s.book.staleBatches + 1))
  }

  ghost function Next(s: State, e: Step): State
    requires CanStep(s, e)
  {
    match e
    case Elapse(dt) => s.(clock := s.clock + dt)
    case Fire => s.(tick := true)
    case TakeTick => s.(tick := false, producer := Woken)
    case ReadClock => s.(producer := Locking(s.clock))
    case Compute =>
      s.(producer := Counting(s.producer.now,
                              Earned(s.lastEvent, s.producer.now, s.limit) + s.surplus, s.epoch))
    case Measure => Measured(s)
    case Push => s.(ch := s.ch + 1,
                    producer := s.producer.(left := s.producer.left - 1),
                    book := s.book.(pushed := s.book.pushed + 1))
    case Publish => Published(s)
    case CallSetLimit(n) => s.(control := Zeroing(Effective(n)))
    case StoreZero => Stored(s, 0.0).(control := Draining(s.control.n))
    case DrainOne => s.(ch := s.ch - 1)
    case DrainDone => s.(control := Restoring(s.control.n))
    case StoreNew => Stored(s, s.control.n).(control := Free)
    case CallStop => s.(control := StoppingTicker)
    case StopTicker => s.(ticking := false, control := Handshaking)
    case Handshake => s.(producer := Exited, control := Clearing)
    case ClearOne => s.(ch := s.ch - 1)
    case ClearDone => s.(control := Stopped)
    case LoadTake => s.(ch := s.ch - 1, load := Sending)
    case LoadSend => s.(load := Receiving, jobs := s.jobs + 1)
    case Cancel => s.(cancelled := true)
    case LoadReturn => s.(load := Returned)
    case LoadStart => s.(load := Receiving, cancelled := false)
  }

  /** NewLimiter at time `now`; Go's zero time is time 0. No load loop runs yet. */
  ghost function Opening(now: real): State {
    State(now, true, false, 0, 0.0, 0.0, 0.0, Selecting, Free, Returned, false, 0, 0,
          Book(0.0, 0.0, 0.0, 0, 0, 0, 0))
  }

  ghost predicate Feasible(s: State, steps: seq<Step>)
    decreases |steps|
  {
    steps != [] ==> CanStep(s, steps[0]) && Feasible(Next(s, steps[0]), steps[1..])
  }

  ghost function Exec(s: State, steps: seq<Step>): State
    requires Feasible(s, steps)
    decreases |steps|
  {
    if steps == [] then s else Exec(Next(s, steps[0]), steps[1..])
  }

  lemma {:induction false} ExecSnoc(s: State, steps: seq<Step>, e: Step)
    requires Feasible(s, steps) && CanStep(Exec(s, steps), e)
    ensures Feasible(s, steps + [e]) && Exec(s, steps + [e]) == Next(Exec(s, steps), e)
    decreases |steps|
  {
    hide CanStep, Next;
    if steps == [] {
      assert [e][1..] == [];
    } else {
      assert (steps + [e])[1..] == steps[1..] + [e];
      ExecSnoc(Next(s, steps[0]), steps[1..], e);
    }
  }

  // ---------------------------------------------------------------------------------------------
  // The invariant

  /** The producer works on a batch that belongs to an earlier epoch. */
  ghost predicate HasStaleBatch(s: State) {
    (s.producer.Counting? || s.producer.Pushing?) && s.producer.born < s.epoch
  }

  /** The epoch's balance at every point of the producer's loop. */
  ghost predicate Balanced(s: State) {
    var b := s.book;
    if HasStaleBatch(s) then
      // Nothing but the stale batch has happened in this epoch.
      && b.base == b.start == s.lastEvent
      && b.staleBatches == 0
      && b.forfeited == 0
      && b.carried == s.surplus
      && b.pushed + (if s.producer.Pushing? then s.producer.left else 0) == b.stale
      && (s.producer.Counting? ==> b.stale == 0)
    else if s.producer.Pushing? then
      b.pushed as real + s.producer.left as real + s.surplus + b.forfeited as real
        == b.stale as real + b.carried + Earned(b.base, s.producer.now, s.limit)
    else
      b.pushed as real + s.surplus + b.forfeited as real
        == b.stale as real + b.carried + Earned(b.base, s.lastEvent, s.limit)
  }

  ghost predicate ProducerOk(s: State) {
    match s.producer
    case Locking(now) => now <= s.clock
    case Counting(now, tokens, born) =>
      && now <= s.clock && born <= s.epoch
      && (born < s.epoch ==> now <= s.book.start)
      && (born == s.epoch ==> tokens == Earned(s.lastEvent, now, s.limit) + s.surplus)
    case Pushing(now, left, born) =>
      && now <= s.clock && born <= s.epoch
      && (born < s.epoch ==> now <= s.book.start)
    case _ => true
  }

  ghost predicate ControlOk(s: State) {
    && (s.control.Draining? || s.control.Restoring? ==> s.limit == 0.0)
    && (s.control.Zeroing? || s.control.Draining? || s.control.Restoring? ==> s.control.n >= 1.0)
    && (s.producer.Exited? <==> s.control.Clearing? || s.control.Stopped?)
    && (s.ticking <==> !(s.control.Handshaking? || s.control.Clearing? || s.control.Stopped?))
    && (s.control.Stopped? ==> s.ch == 0)
  }

  /** The producer has no batch whose pushes a SetLimit could overtake. */
  ghost predicate NoBatch(s: State) {
    !s.producer.Pushing? && (s.producer.Counting? ==> s.producer.tokens < 1.0)
  }

  /** Between calls of SetLimit the limit is 0 only before the first one, and then there is no batch. */
  ghost predicate NoBatchYet(s: State) {
    s.limit == 0.0 && !s.control.Draining? && !s.control.Restoring? ==> NoBatch(s)
  }

  ghost predicate BookOk(s: State) {
    var b := s.book;
    && b.start <= s.clock
    && b.staleBatches <= 1
    && b.base <= b.start
    && (b.staleBatches == 0 ==> b.base == b.start && (!HasStaleBatch(s) ==> b.stale == 0))
  }

  ghost predicate Good(s: State) {
    && 0.0 <= s.surplus < 1.0
    && 0.0 <= s.limit
    && s.ch <= BUFFER_SIZE
    && ProducerOk(s)
    && s.lastEvent <= s.clock
    && ControlOk(s)
    && NoBatchYet(s)
    && BookOk(s)
    && Balanced(s)
  }

  lemma OpeningIsGood(now: real)
    requires now >= 0.0
    ensures Good(Opening(now))
  {
  }

  lemma StoredIsGood(s: State, n: real)
    requires Good(s) && n >= 0.0
    ensures var t := Stored(s, n); ProducerOk(t) && BookOk(t) && Balanced(t)
  {
    hide Earned;
    EarnedNothing(s.clock, n);
  }

  lemma ComputeKeepsGood(s: State)
    requires Good(s) && CanStep(s, Compute)
    ensures Good(Next(s, Compute))
  {
    hide Earned;
    EarnedAtZero(s.lastEvent, s.producer.now);
  }

  lemma MeasureKeepsGood(s: State)
    requires Good(s) && CanStep(s, Measure)
    ensures Good(Next(s, Measure))
  {
    hide Earned;
    var Counting(now, tokens, born) := s.producer;
    EarnedSplits(s.book.base, s.lastEvent, now, s.limit);
    EarnedNothing(s.book.base, s.limit);
  }

  lemma PublishKeepsGood(s: State)
    requires Good(s) && CanStep(s, Publish)
    ensures Good(Next(s, Publish))
  {
    hide Earned;
    EarnedNothing(s.producer.now, s.limit);
  }

  lemma StepKeepsGood(s: State, e: Step)
    requires Good(s) && CanStep(s, e)
    ensures Good(Next(s, e))
  {
    hide Earned, Measured, Published;
    match e {
      case Compute => ComputeKeepsGood(s);
      case Measure => MeasureKeepsGood(s);
      case Publish => PublishKeepsGood(s);
      case StoreZero => StoredIsGood(s, 0.0);
      case StoreNew => StoredIsGood(s, s.control.n);
      case _ =>
    }
  }

  lemma {:induction false} RunKeepsGood(s: State, steps: seq<Step>)
    requires Good(s) && Feasible(s, steps)
    ensures Good(Exec(s, steps))
    decreases |steps|
  {
    hide Good, CanStep, Next;
    if steps != [] {
      StepKeepsGood(s, steps[0]);
      RunKeepsGood(Next(s, steps[0]), steps[1..]);
    }
  }

  /**
   In every interleaving, whenever the producer is back at its select: at most one batch computed under an
   older limit has ended in the current epoch, and tokens, surplus and forfeited credit together are exactly
   what that batch still pushed, the surplus it left, and limit * (lastEvent - base).
   */
  lemma EpochBalance(start: real, steps: seq<Step>)
    requires start >= 0.0 && Feasible(Opening(start), steps)
    requires Exec(Opening(start), steps).producer.Selecting?
    ensures var s := Exec(Opening(start), steps);
      var b := s.book;
      && b.pushed as real + s.surplus + b.forfeited as real
           == b.stale as real + b.carried + Earned(b.base, s.lastEvent, s.limit)
      && 0.0 <= s.surplus < 1.0
      && b.staleBatches <= 1
      && (b.staleBatches == 0 ==> b.stale == 0 && b.base == b.start)
      && b.base <= b.start
  {
    hide Earned, Feasible, Exec;
    OpeningIsGood(start);
    RunKeepsGood(Opening(start), steps);
  }

  /** The carried remainder is a proper fraction of a token in every state of every interleaving. */
  lemma SurplusStaysFractional(start: real, steps: seq<Step>)
    requires start >= 0.0 && Feasible(Opening(start), steps)
    ensures 0.0 <= Exec(Opening(start), steps).surplus < 1.0
    ensures Exec(Opening(start), steps).ch <= BUFFER_SIZE
  {
    hide Feasible, Exec;
    OpeningIsGood(start);
    RunKeepsGood(Opening(start), steps);
  }

  // ---------------------------------------------------------------------------------------------
  // What the book of an epoch refers to

  ghost predicate WithinEpoch(steps: seq<Step>) {
    forall i :: 0 <= i < |steps| ==> !steps[i].StoreZero? && !steps[i].StoreNew?
  }

  ghost function Pushes(steps: seq<Step>): nat {
    if steps == [] then 0 else (if steps[0].Push? then 1 else 0) + Pushes(steps[1..])
  }

  /** The state in which a setLimit leaves the limiter. */
  ghost predicate JustStored(s: State) {
    && s.lastEvent == s.clock
    && s.book == Book(s.clock, s.surplus, s.clock, if s.producer.Pushing? then s.producer.left else 0, 0, 0, 0)
    && (s.producer.Counting? || s.producer.Pushing? ==> s.producer.born < s.epoch)
  }

  /**
   How the book of `s` refers to the producer's position in `s0`, at the setLimit that opened the epoch. `read` is
   the channel length at the producer's first Measure since, if there was one.
   */
  ghost predicate Anchored(s0: State, s: State, read: Option<nat>) {
    var b := s.book;
    && s.epoch == s0.epoch
    && s.limit == s0.limit
    && b.start == s0.clock
    && match s0.producer
       case Pushing(now, left, _) =>
         // A stale batch in the middle of its pushes: all that were left are made.
         && b.stale == left
         && b.carried == s0.surplus
         && if HasStaleBatch(s) then s.producer.Pushing? && s.producer.now == now else b.base == now
       case Counting(now, tokens, _) =>
         if read.None? then
           s.producer == s0.producer && b == s0.book
         else if Trunc(tokens) > read.value then
           // A stale batch that found room: it pushes the difference.
           && b.stale == Trunc(tokens) - read.value
           && b.carried == tokens - Trunc(tokens) as real
           && if HasStaleBatch(s) then s.producer.Pushing? && s.producer.now == now else b.base == now
         else
           !HasStaleBatch(s) && b.stale == 0 && b.carried == s0.surplus && b.base == b.start
       case _ => !HasStaleBatch(s) && b.stale == 0 && b.carried == s0.surplus && b.base == b.start
  }

  ghost function Noted(read: Option<nat>, s: State, e: Step): Option<nat> {
    if read.None? && e.Measure? then Some(s.ch) else read
  }

  /** The channel length at the first Measure of `steps`, unless an earlier one is given. */
  ghost function FirstRead(read: Option<nat>, s: State, steps: seq<Step>): Option<nat>
    requires Feasible(s, steps)
    decreases |steps|
  {
    if steps == [] then read else FirstRead(Noted(read, s, steps[0]), Next(s, steps[0]), steps[1..])
  }

  lemma StepKeepsAnchor(s0: State, s: State, e: Step, read: Option<nat>)
    requires Good(s) && CanStep(s, e) && !e.StoreZero? && !e.StoreNew?
    requires JustStored(s0) && Anchored(s0, s, read)
    ensures Anchored(s0, Next(s, e), Noted(read, s, e))
    ensures Next(s, e).book.pushed == s.book.pushed + if e.Push? then 1 else 0
  {
    hide Earned;
  }

  /**
   Within an epoch `pushed` counts the pushes, `start` is the time of the setLimit, and `stale`, `carried`
   and `base` describe the batch that was under way at the setLimit, or its absence.
   */
  lemma {:induction false} EpochAnchors(s0: State, s: State, steps: seq<Step>, read: Option<nat>)
    requires JustStored(s0) && Anchored(s0, s, read) && Good(s)
    requires Feasible(s, steps) && WithinEpoch(steps)
    ensures Anchored(s0, Exec(s, steps), FirstRead(read, s, steps))
    ensures Exec(s, steps).book.pushed == s.book.pushed + Pushes(steps)
    decreases |steps|
  {
    hide Good, CanStep, Next, Anchored, JustStored;
    if steps != [] {
      var e := steps[0];
      assert !e.StoreZero? && !e.StoreNew?;
      StepKeepsGood(s, e);
      StepKeepsAnchor(s0, s, e, read);
      assert WithinEpoch(steps[1..]);
      EpochAnchors(s0, Next(s, e), steps[1..], Noted(read, s, e));
    }
  }

  lemma SetLimitOpensEpoch(s: State, e: Step)
    requires Good(s) && CanStep(s, e) && (e.StoreZero? || e.StoreNew?)
    ensures Good(Next(s, e)) && JustStored(Next(s, e)) && Anchored(Next(s, e), Next(s, e), None)
    ensures Next(s, e).epoch == s.epoch + 1
  {
    StepKeepsGood(s, e);
  }

  /**
   The balance of an epoch in terms of the steps taken in it, whenever the producer is back at its select; `e` is
   the setLimit that opened the epoch. A batch that was under way then shifts the account to the time it had read,
   and adds what it still pushed: all that was left of it, or what the channel length it read left room for.
   */
  lemma EpochAccount(s: State, e: Step, steps: seq<Step>)
    requires Good(s) && CanStep(s, e) && (e.StoreZero? || e.StoreNew?)
    requires Feasible(Next(s, e), steps) && WithinEpoch(steps) && Exec(Next(s, e), steps).producer.Selecting?
    ensures var s0 := Next(s, e);
      var t := Exec(s0, steps);
      var spent := Pushes(steps) as real + t.surplus + t.book.forfeited as real;
      match s0.producer
      case Pushing(now, left, _) =>
        spent == left as real + s0.surplus + Earned(now, t.lastEvent, s0.limit)
      case Counting(now, tokens, _) =>
        var read := FirstRead(None, s0, steps);
        && read.Some?
        && spent == (if Trunc(tokens) > read.value
                     then (tokens - read.value as real) + Earned(now, t.lastEvent, s0.limit)
                     else s0.surplus + Earned(s0.clock, t.lastEvent, s0.limit))
      case _ =>
        spent == s0.surplus + Earned(s0.clock, t.lastEvent, s0.limit)
  {
    hide Earned, Feasible, Exec, WithinEpoch, Pushes, FirstRead, Next, CanStep;
    SetLimitOpensEpoch(s, e);
    var s0 := Next(s, e);
    RunKeepsGood(s0, steps);
    EpochAnchors(s0, s0, steps, None);
    assert !HasStaleBatch(Exec(s0, steps));
  }
}
