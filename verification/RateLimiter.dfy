/**
 The token limiter with atomic ticks: one iteration of the producer loop, one SetLimit call and one
 receive are each a single event. Time and rates are real numbers.

 `Account` is the value view of a limiter: the fields of the Go struct, the producer's local `surplus`,
 the number of tokens in the channel, and a ledger of everything that happened to tokens and credit.
 */
module RateLimiter {
  import opened Numbers

  /** What a rate is worth between two times. */
  function Earned(since: real, until: real, rate: real): real {
    (until - since) * rate
  }

  lemma EarnedSplits(x: real, y: real, z: real, rate: real)
    ensures Earned(x, z, rate) == Earned(x, y, rate) + Earned(y, z, rate)
  {
  }

  lemma EarnedNothing(x: real, rate: real)
    ensures Earned(x, x, rate) == 0.0
  {
  }

  lemma EarnedAtZero(since: real, until: real)
    ensures Earned(since, until, 0.0) == 0.0
  {
  }

  lemma EarnedNonNeg(since: real, until: real, rate: real)
    requires since <= until && rate >= 0.0
    ensures Earned(since, until, rate) >= 0.0
  {
    MulNonNeg(until - since, rate);
  }

  const BUFFER_SIZE: nat := 1_000_000

  datatype Account = Account(
    limit: real,
    lastEvent: real,
    surplus: real,
    ch: nat,
    // ledger
    clock: real,      // time of the latest event
    pushed: nat,      // tokens the producer put into the channel
    forfeited: nat,   // credit given up because old tokens were still in the channel
    drained: nat,     // tokens thrown away by SetLimit and Stop
    received: nat,    // tokens taken by the consumer
    lost: real)       // credit given up because SetLimit moved lastEvent
  {
    ghost predicate Valid() {
      && 0.0 <= surplus < 1.0
      && limit >= 0.0
      && lastEvent <= clock
      && ch <= BUFFER_SIZE
      && pushed == ch + drained + received
    }

    /** What the producer computes under the lock. */
    function Tokens(now: real): real {
      Earned(lastEvent, now, limit) + surplus
    }
  }

  /** How many of `level` tokens the channel can hold. */
  function Capped(level: nat): (c: nat)
    ensures c <= BUFFER_SIZE && c <= level
  {
    if level > BUFFER_SIZE then BUFFER_SIZE else level
  }

  /**
   One iteration of the producer loop that read the clock as `now`. A batch that does not fit into the
   channel completes only after the consumer has taken the overflow; those receives are part of the tick.
   */
  function Ticked(a: Account, now: real): (b: Account)
    requires a.Valid() && a.clock <= now
    ensures b.Valid()
  {
    EarnedNonNeg(a.lastEvent, now, a.limit);
    var level := Trunc(a.Tokens(now));
    if level <= a.ch then
      a.(clock := now)
    else
      a.(surplus := a.Tokens(now) - level as real,
         lastEvent := now,
         clock := now,
         ch := Capped(level),
         pushed := a.pushed + (level - a.ch),
         forfeited := a.forfeited + a.ch,
         received := a.received + (level - Capped(level)))
  }

  /** The rate SetLimit actually installs. */
  function Effective(n: real): real {
    Max(1.0, n)
  }

  /** SetLimit: limit 0 from `zeroAt`, an empty channel, then the new limit from `at`. */
  function Limited(a: Account, n: real, zeroAt: real, at: real): Account {
    a.(limit := Effective(n),
       lastEvent := at,
       clock := at,
       ch := 0,
       drained := a.drained + a.ch,
       lost := a.lost + Earned(a.lastEvent, zeroAt, a.limit))
  }

  function Received(a: Account): Account
    requires a.ch > 0
  {
    a.(ch := a.ch - 1, received := a.received + 1)
  }

  /** The account of a limiter nobody has configured yet; Go's zero time is time 0. */
  function Opened(now: real): (a: Account)
    requires now >= 0.0
    ensures a.Valid()
  {
    Account(0.0, 0.0, 0.0, 0, now, 0, 0, 0, 0, 0.0)
  }

  /** The Go type with its channel as a count of empty structs and `surplus`, local to start, as a field. */
  class Limiter {
    var limit: real
    var lastEvent: real
    var surplus: real
    var ch: nat

    ghost var clock: real
    ghost var pushed: nat
    ghost var forfeited: nat
    ghost var drained: nat
    ghost var received: nat
    ghost var lost: real

    ghost function View(): Account
      reads this
    {
      Account(limit, lastEvent, surplus, ch, clock, pushed, forfeited, drained, received, lost)
    }

    ghost predicate Valid()
      reads this
    {
      View().Valid()
    }

    constructor (ghost now: real)
      requires now >= 0.0
      ensures Valid() && View() == Opened(now)
    {
      limit, lastEvent, surplus, ch := 0.0, 0.0, 0.0, 0;
      clock, pushed, forfeited, drained, received, lost := now, 0, 0, 0, 0, 0.0;
    }

    /** The push loop; a push on a full channel waits for one receive. */
    method PushBatch(n: nat)
      requires ch <= BUFFER_SIZE
      modifies this`ch, this`pushed, this`received
      ensures ch == Capped(old(ch) + n)
      ensures pushed == old(pushed) + n
      ensures received == old(received) + (old(ch) + n - ch)
    {
      var i := 0;
      while i < n
        invariant 0 <= i <= n
        invariant ch == Capped(old(ch) + i)
        invariant pushed == old(pushed) + i
        invariant received == old(received) + (old(ch) + i - ch)
      {
        if ch == BUFFER_SIZE {
          ch, received := ch - 1, received + 1;
        }
        ch, pushed := ch + 1, pushed + 1;
        i := i + 1;
      }
    }

    /** The body of the select's ticker case. */
    method Tick(now: real)
      requires Valid() && clock <= now
      modifies this
      ensures Valid() && View() == Ticked(old(View()), now)
    {
      EarnedNonNeg(lastEvent, now, limit);
      var tokens := (now - lastEvent) * limit + surplus;
      assert tokens == View().Tokens(now);
      clock := now;
      var n := Trunc(tokens) - ch;
      if n <= 0 {
        return;
      }
      surplus := tokens - Trunc(tokens) as real;
      forfeited := forfeited + ch;
      PushBatch(n);
      assert old(ch) + n == Trunc(tokens);
      lastEvent := now;
    }

    /** setLimit: both fields change under one lock. */
    method StoreLimit(n: real, now: real)
      requires clock <= now
      modifies this`limit, this`lastEvent, this`clock, this`lost
      ensures limit == n && lastEvent == clock == now
      ensures lost == old(lost) + Earned(old(lastEvent), now, old(limit))
    {
      lost := lost + Earned(lastEvent, now, limit);
      limit, lastEvent, clock := n, now, now;
    }

    /** drainChan: receive until the channel is empty. */
    method DrainChan()
      modifies this`ch, this`drained
      ensures ch == 0 && drained == old(drained) + old(ch)
    {
      while ch > 0
        invariant drained + ch == old(drained) + old(ch)
      {
        ch, drained := ch - 1, drained + 1;
      }
    }

    method SetLimit(n: real, zeroAt: real, at: real)
      requires Valid() && clock <= zeroAt <= at
      modifies this
      ensures Valid() && View() == Limited(old(View()), n, zeroAt, at)
      ensures limit == Max(1.0, n) && lastEvent == at && ch == 0 && surplus == old(surplus)
    {
      hide Earned;
      EarnedAtZero(zeroAt, at);
      var m := n;
      if m < 1.0 {
        m := 1.0;
      }
      StoreLimit(0.0, zeroAt);
      DrainChan();
      StoreLimit(m, at);
    }

    method Receive()
      requires Valid() && ch > 0
      modifies this
      ensures Valid() && View() == Received(old(View()))
    {
      ch, received := ch - 1, received + 1;
    }
  }

  // ---------------------------------------------------------------------------------------------
  // Runs

  datatype Event =
    | Tick(now: real)
    | SetLimit(n: real, zeroAt: real, at: real)
    | Receive

  ghost predicate Enabled(a: Account, e: Event) {
    match e
    case Tick(now) => a.clock <= now
    case SetLimit(_, zeroAt, at) => a.clock <= zeroAt <= at
    case Receive => a.ch > 0
  }

  ghost function Apply(a: Account, e: Event): (b: Account)
    requires a.Valid() && Enabled(a, e)
    ensures b.Valid() && a.clock <= b.clock
  {
    match e
    case Tick(now) => Ticked(a, now)
    case SetLimit(n, zeroAt, at) => Limited(a, n, zeroAt, at)
    case Receive => Received(a)
  }

  /** `events` can happen one after the other from `a`. */
  ghost predicate Possible(a: Account, events: seq<Event>)
    requires a.Valid()
    decreases |events|
  {
    events == [] || (Enabled(a, events[0]) && Possible(Apply(a, events[0]), events[1..]))
  }

  ghost function Run(a: Account, events: seq<Event>): (b: Account)
    requires a.Valid() && Possible(a, events)
    ensures b.Valid()
    decreases |events|
  {
    if events == [] then a else Run(Apply(a, events[0]), events[1..])
  }
}
