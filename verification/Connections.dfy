/**
 The gauge of open connections. A connection remembers the gauge that was current when it was dialled; Close
 adds 1 to a 32-bit counter and decrements that gauge when the counter becomes 1. Any number of goroutines may
 close a connection any number of times, and the addition and the decrement are separate steps.
 */
module Connections {
  import opened Workers

  const WORD: nat := 0x1_0000_0000

  datatype Conn = Conn(
    generation: nat,
    closed: nat,        // the 32-bit counter
    calls: nat,         // Close calls that have added to it
    pending: nat,       // of these, calls that saw 1 and have not decremented yet
    decremented: nat)   // decrements made for this connection

  datatype State = State(gauges: seq<int>, conns: seq<Conn>)   // one gauge per generation, the last is current

  datatype Step = Dial | Flush | Add(i: nat) | Decrement(i: nat)

  predicate CanStep(s: State, e: Step) {
    match e
    case Dial => s.gauges != []
    case Flush => true
    case Add(i) => i < |s.conns|
    case Decrement(i) => i < |s.conns| && s.conns[i].pending > 0 && s.conns[i].generation < |s.gauges|
  }

  /** atomic.AddUint32(&hc.closed, 1) == 1 */
  function Added(c: Conn): Conn {
    var closed := (c.closed + 1) % WORD;
    c.(closed := closed, calls := c.calls + 1, pending := c.pending + if closed == 1 then 1 else 0)
  }

  function Next(s: State, e: Step): State
    requires CanStep(s, e)
  {
    match e
    case Dial =>
      var g: nat := |s.gauges| - 1;
      State(s.gauges[g := s.gauges[g] + 1], s.conns + [Conn(g, 0, 0, 0, 0)])
    case Flush => s.(gauges := s.gauges + [0])
    case Add(i) => s.(conns := s.conns[i := Added(s.conns[i])])
    case Decrement(i) =>
      var c := s.conns[i];
      State(s.gauges[c.generation := s.gauges[c.generation] - 1],
            s.conns[i := c.(pending := c.pending - 1, decremented := c.decremented + 1)])
  }

  ghost predicate Feasible(s: State, steps: seq<Step>)
    decreases |steps|
  {
    steps != [] ==> CanStep(s, steps[0]) && Feasible(Next(s, steps[0]), steps[1..])
  }

  ghost function Exec(s: State, steps: seq<Step>): State
    requires Feasible(s, steps)
    decreases |steps|
  {
    if steps == [] then s else Exec(Next(s, steps[0]), steps[1..])
  }

  const OPENING := State([0], [])

  /** Dials less decrements over the connections of one generation. */
  function Balance(conns: seq<Conn>, g: nat): int {
    if conns == [] then 0
    else (if conns[0].generation == g then 1 - conns[0].decremented else 0) + Balance(conns[1..], g)
  }

  lemma {:induction false} BalanceUpdate(conns: seq<Conn>, i: nat, c: Conn, g: nat)
    requires i < |conns| && c.generation == conns[i].generation
    ensures Balance(conns[i := c], g)
         == Balance(conns, g) + if c.generation == g then conns[i].decremented - c.decremented else 0
  {
    if i == 0 {
      assert conns[i := c][1..] == conns[1..];
    } else {
      assert conns[i := c][1..] == conns[1..][i - 1 := c];
      BalanceUpdate(conns[1..], i - 1, c, g);
    }
  }

  lemma {:induction false} BalanceAppend(conns: seq<Conn>, c: Conn, g: nat)
    ensures Balance(conns + [c], g)
         == Balance(conns, g) + if c.generation == g then 1 - c.decremented else 0
  {
    if conns == [] {
      assert conns + [c] == [c];
    } else {
      assert (conns + [c])[1..] == conns[1..] + [c];
      BalanceAppend(conns[1..], c, g);
    }
  }

  lemma {:induction false} BalanceOfNone(conns: seq<Conn>, g: nat)
    requires forall i :: 0 <= i < |conns| ==> conns[i].generation < g
    ensures Balance(conns, g) == 0
  {
    if conns != [] {
      forall i | 0 <= i < |conns[1..]| ensures conns[1..][i].generation < g {
        assert conns[1..][i] == conns[i + 1];
      }
      BalanceOfNone(conns[1..], g);
    }
  }

  /** How often k additions to the counter give 1: once in every 2^32. */
  function Firsts(k: nat): nat {
    (k + (WORD - 1)) / WORD
  }

  lemma FirstsStep(k: nat)
    ensures Firsts(k + 1) == Firsts(k) + if (k % WORD + 1) % WORD == 1 then 1 else 0
    ensures (k + 1) % WORD == (k % WORD + 1) % WORD
  {
    var q, r := k / WORD, k % WORD;
    assert k == q * WORD + r;
    if r == 0 {
      assert (k + (WORD - 1)) / WORD == q;
      assert (k + 1 + (WORD - 1)) / WORD == q + 1;
    } else if r == WORD - 1 {
      assert k + 1 == (q + 1) * WORD;
    } else {
      assert (k + (WORD - 1)) == (q + 1) * WORD + (r - 1);
      assert (k + 1 + (WORD - 1)) == (q + 1) * WORD + r;
    }
  }

  ghost predicate ConnOk(c: Conn, generations: nat) {
    && c.generation < generations
    && c.closed == c.calls % WORD
    && c.pending + c.decremented == Firsts(c.calls)
  }

  ghost predicate Good(s: State) {
    && s.gauges != []
    && (forall i :: 0 <= i < |s.conns| ==> ConnOk(s.conns[i], |s.gauges|))
    && (forall g :: 0 <= g < |s.gauges| ==> s.gauges[g] == Balance(s.conns, g))
  }

  lemma FirstsOfNone()
    ensures Firsts(0) == 0 && Firsts(1) == 1
  {
  }

  lemma StepKeepsGood(s: State, e: Step)
    requires Good(s) && CanStep(s, e)
    ensures Good(Next(s, e))
  {
    hide Firsts;
    var t := Next(s, e);
    match e {
      case Dial =>
        FirstsOfNone();
        forall g | 0 <= g < |t.gauges| ensures t.gauges[g] == Balance(t.conns, g) {
          BalanceAppend(s.conns, Conn(|s.gauges| - 1, 0, 0, 0, 0), g);
        }
      case Flush =>
        BalanceOfNone(s.conns, |s.gauges|);
      case Add(i) =>
        FirstsStep(s.conns[i].calls);
        forall g | 0 <= g < |t.gauges| ensures t.gauges[g] == Balance(t.conns, g) {
          BalanceUpdate(s.conns, i, t.conns[i], g);
        }
      case Decrement(i) =>
        forall g | 0 <= g < |t.gauges| ensures t.gauges[g] == Balance(t.conns, g) {
          BalanceUpdate(s.conns, i, t.conns[i], g);
        }
    }
  }

  lemma {:induction false} RunKeepsGood(s: State, steps: seq<Step>)
    requires Good(s) && Feasible(s, steps)
    ensures Good(Exec(s, steps))
    decreases |steps|
  {
    hide Good, CanStep, Next;
    if steps != [] {
      StepKeepsGood(s, steps[0]);
      RunKeepsGood(Next(s, steps[0]), steps[1..]);
    }
  }

  /** A connection of generation g that no Close has taken off the gauge. */
  function CountedOpen(g: nat): Conn -> bool {
    (c: Conn) => c.generation == g && c.decremented == 0
  }

  /** Fewer than 2^32 calls of Close, or exactly that many, decrement at most once. */
  lemma DecrementsOnce(c: Conn, generations: nat)
    requires ConnOk(c, generations)
    ensures c.decremented <= 1 <== c.calls <= WORD
    ensures c.calls <= WORD <==> c.pending + c.decremented <= 1
  {
  }

  lemma {:induction false} BalanceCounts(conns: seq<Conn>, g: nat)
    requires forall i :: 0 <= i < |conns| ==> conns[i].decremented <= 1
    ensures Balance(conns, g) == Count(conns, CountedOpen(g))
  {
    if conns != [] {
      assert conns[0].decremented <= 1;
      forall i | 0 <= i < |conns[1..]| ensures conns[1..][i].decremented <= 1 {
        assert conns[1..][i] == conns[i + 1];
      }
      BalanceCounts(conns[1..], g);
    }
  }

  /**
   In every interleaving of dials, flushes and concurrent, repeated closes, as long as no connection is closed
   more than 2^32 times: the gauge of each generation is the number of its connections that no Close has taken
   off yet, hence never negative, and closes of old connections do not touch newer gauges.
   */
  lemma GaugeCountsOpen(steps: seq<Step>, g: nat)
    requires Feasible(OPENING, steps)
    requires var s := Exec(OPENING, steps);
      g < |s.gauges| && forall i :: 0 <= i < |s.conns| ==> s.conns[i].calls <= WORD
    ensures var s := Exec(OPENING, steps);
      s.gauges[g] == Count(s.conns, CountedOpen(g))
  {
    hide Feasible, Exec;
    assert Good(OPENING);
    RunKeepsGood(OPENING, steps);
    var s := Exec(OPENING, steps);
    forall i | 0 <= i < |s.conns| ensures s.conns[i].decremented <= 1 {
      DecrementsOnce(s.conns[i], |s.gauges|);
    }
    BalanceCounts(s.conns, g);
  }

  ghost predicate AtMostOnce(conns: seq<Conn>, g: nat) {
    forall i :: 0 <= i < |conns| && conns[i].generation == g ==> conns[i].decremented <= 1
  }

  lemma {:induction false} BalanceVersusCount(conns: seq<Conn>, g: nat)
    ensures Balance(conns, g) <= Count(conns, CountedOpen(g))
    ensures Balance(conns, g) == Count(conns, CountedOpen(g)) <==> AtMostOnce(conns, g)
  {
    if conns != [] {
      var rest := conns[1..];
      BalanceVersusCount(rest, g);
      if AtMostOnce(conns, g) {
        forall i | 0 <= i < |rest| && rest[i].generation == g ensures rest[i].decremented <= 1 {
          assert rest[i] == conns[i + 1];
        }
      } else if AtMostOnce(rest, g) {
        assert conns[0].generation == g && conns[0].decremented > 1 by {
          forall i | 0 < i < |conns| && conns[i].generation == g ensures conns[i].decremented <= 1 {
            assert conns[i] == rest[i - 1];
          }
        }
      }
    }
  }

  /** A connection of generation g that has never been closed. */
  function NeverClosed(g: nat): Conn -> bool {
    (c: Conn) => c.generation == g && c.calls == 0
  }

  /** The first Close takes a connection off, at once or by a decrement that is pending. */
  lemma FirstCloseTakesOff(c: Conn, generations: nat)
    requires ConnOk(c, generations)
    ensures c.pending + c.decremented == 0 <==> c.calls == 0
  {
  }

  lemma {:induction false} SettledCountsAgree(conns: seq<Conn>, g: nat, generations: nat)
    requires forall i :: 0 <= i < |conns| ==> ConnOk(conns[i], generations)
    requires forall i :: 0 <= i < |conns| && conns[i].generation == g ==> conns[i].pending == 0
    ensures Count(conns, CountedOpen(g)) == Count(conns, NeverClosed(g))
  {
    hide Firsts, ConnOk;
    if conns != [] {
      var rest := conns[1..];
      assert ConnOk(conns[0], generations);
      FirstCloseTakesOff(conns[0], generations);
      forall i | 0 <= i < |rest| ensures ConnOk(rest[i], generations) {
        assert rest[i] == conns[i + 1];
      }
      forall i | 0 <= i < |rest| && rest[i].generation == g ensures rest[i].pending == 0 {
        assert rest[i] == conns[i + 1];
      }
      SettledCountsAgree(rest, g, generations);
    }
  }

  /**
   In every run, once no decrement is pending, the gauge of a generation is the number of its connections that have
   never been closed if and only if none of them was closed more than 2^32 times; otherwise it is too small.
   */
  lemma GaugeExactIff(steps: seq<Step>, g: nat)
    requires Feasible(OPENING, steps)
    requires var s := Exec(OPENING, steps);
      g < |s.gauges| && forall i :: 0 <= i < |s.conns| && s.conns[i].generation == g ==> s.conns[i].pending == 0
    ensures var s := Exec(OPENING, steps);
      && s.gauges[g] <= Count(s.conns, NeverClosed(g))
      && (s.gauges[g] == Count(s.conns, NeverClosed(g)) <==>
          forall i :: 0 <= i < |s.conns| && s.conns[i].generation == g ==> s.conns[i].calls <= WORD)
  {
    hide Feasible, Exec, Firsts;
    assert Good(OPENING);
    RunKeepsGood(OPENING, steps);
    var s := Exec(OPENING, steps);
    BalanceVersusCount(s.conns, g);
    SettledCountsAgree(s.conns, g, |s.gauges|);
    forall i | 0 <= i < |s.conns| && s.conns[i].generation == g
      ensures s.conns[i].decremented <= 1 <==> s.conns[i].calls <= WORD
    {
      DecrementsOnce(s.conns[i], |s.gauges|);
    }
  }

  // ---------------------------------------------------------------------------------------------
  // What the state is in terms of the steps

  predicate IsDial(e: Step) { e.Dial? }

  predicate IsFlush(e: Step) { e.Flush? }

  /** e is the addition of a Close of connection i. */
  function ClosesConn(i: nat): Step -> bool {
    (e: Step) => e == Add(i)
  }

  function TakesOff(i: nat): Step -> bool {
    (e: Step) => e == Decrement(i)
  }

  function CallsOf(s: State, i: nat): nat {
    if i < |s.conns| then s.conns[i].calls else 0
  }

  function DecrementsOf(s: State, i: nat): nat {
    if i < |s.conns| then s.conns[i].decremented else 0
  }

  lemma StepCounts(s: State, e: Step)
    requires CanStep(s, e)
    ensures var t := Next(s, e);
      && |t.conns| == |s.conns| + (if e.Dial? then 1 else 0)
      && |t.gauges| == |s.gauges| + (if e.Flush? then 1 else 0)
      && (forall i :: 0 <= i < |s.conns| ==> t.conns[i].generation == s.conns[i].generation)
      && (e.Dial? ==> t.conns[|s.conns|].generation == |s.gauges| - 1)
      && (forall i :: CallsOf(t, i) == CallsOf(s, i) + if e == Add(i) then 1 else 0)
      && (forall i :: DecrementsOf(t, i) == DecrementsOf(s, i) + if e == Decrement(i) then 1 else 0)
  {
  }

  /** From any state on; connections and gauges are only ever added. */
  lemma {:induction false} RunCounts(s: State, steps: seq<Step>)
    requires Feasible(s, steps)
    ensures var t := Exec(s, steps);
      && |t.conns| == |s.conns| + Count(steps, IsDial)
      && |t.gauges| == |s.gauges| + Count(steps, IsFlush)
      && (forall i :: 0 <= i < |s.conns| ==> t.conns[i].generation == s.conns[i].generation)
      && (forall k :: 0 <= k < |steps| && IsDial(steps[k]) ==>
            var i := |s.conns| + Count(steps[..k], IsDial);
            i < |t.conns| && t.conns[i].generation == |s.gauges| - 1 + Count(steps[..k], IsFlush))
    decreases |steps|
  {
    hide CanStep, Next;
    if steps != [] {
      var t, rest := Exec(s, steps), steps[1..];
      StepCounts(s, steps[0]);
      RunCounts(Next(s, steps[0]), rest);
      forall k | 0 <= k < |steps| && IsDial(steps[k])
        ensures var i := |s.conns| + Count(steps[..k], IsDial);
          i < |t.conns| && t.conns[i].generation == |s.gauges| - 1 + Count(steps[..k], IsFlush)
      {
        if k > 0 {
          assert steps[..k][1..] == rest[..k - 1] && rest[k - 1] == steps[k];
        }
      }
    }
  }

  /**
   In every run a connection belongs to the generation in force when it was dialled: the number of flushes before its
   dial.
   */
  lemma DialRemembersGauge(steps: seq<Step>, k: nat)
    requires Feasible(OPENING, steps) && k < |steps| && steps[k].Dial?
    ensures var s := Exec(OPENING, steps);
      var i := Count(steps[..k], IsDial);
      && i < |s.conns| == Count(steps, IsDial)
      && s.conns[i].generation == Count(steps[..k], IsFlush) < |s.gauges| == 1 + Count(steps, IsFlush)
  {
    hide Feasible, Exec, Count;
    assert Good(OPENING);
    RunKeepsGood(OPENING, steps);
    RunCounts(OPENING, steps);
    assert IsDial(steps[k]);
  }

  /** Every Close of a connection is in its number of calls, and every decrement made for it is counted. */
  lemma {:induction false} CallsAreCounted(s: State, steps: seq<Step>, i: nat)
    requires Feasible(s, steps)
    ensures var t := Exec(s, steps);
      && CallsOf(t, i) == CallsOf(s, i) + Count(steps, ClosesConn(i))
      && DecrementsOf(t, i) == DecrementsOf(s, i) + Count(steps, TakesOff(i))
    decreases |steps|
  {
    hide CanStep, Next, CallsOf, DecrementsOf;
    if steps != [] {
      StepCounts(s, steps[0]);
      CallsAreCounted(Next(s, steps[0]), steps[1..], i);
    }
  }

  /** A decrement for one of the connections from index n on. */
  function TakesOffNewer(n: nat): Step -> bool {
    (e: Step) => e.Decrement? && e.i >= n
  }

  /** The connections from index n on are those of the current generation. */
  ghost predicate CurrentFrom(s: State, n: nat) {
    && s.gauges != [] && n <= |s.conns|
    && forall i :: 0 <= i < |s.conns| ==>
         s.conns[i].generation < |s.gauges| && (s.conns[i].generation == |s.gauges| - 1 <==> i >= n)
  }

  lemma {:induction false} CurrentGaugeCounts(s: State, steps: seq<Step>, n: nat)
    requires CurrentFrom(s, n) && Feasible(s, steps) && forall k :: 0 <= k < |steps| ==> !steps[k].Flush?
    ensures var t := Exec(s, steps);
      && |t.gauges| == |s.gauges|
      && t.gauges[|t.gauges| - 1]
           == s.gauges[|s.gauges| - 1] + Count(steps, IsDial) - Count(steps, TakesOffNewer(n))
    decreases |steps|
  {
    if steps != [] {
      assert !steps[0].Flush?;
      CurrentGaugeCounts(Next(s, steps[0]), steps[1..], n);
    }
  }

  /**
   What ConnOpen reports: the dials since the latest flush, less the decrements for the connections they made. Closes of
   older connections do not show.
   */
  lemma ConnOpenCounts(before: seq<Step>, steps: seq<Step>)
    requires Feasible(OPENING, before) && Feasible(Next(Exec(OPENING, before), Flush), steps)
    requires forall k :: 0 <= k < |steps| ==> !steps[k].Flush?
    ensures var s := Exec(OPENING, before);
      var t := Exec(Next(s, Flush), steps);
      && t.gauges != []
      && t.gauges[|t.gauges| - 1] == Count(steps, IsDial) - Count(steps, TakesOffNewer(|s.conns|))
  {
    hide Feasible, Exec, Firsts;
    assert Good(OPENING);
    RunKeepsGood(OPENING, before);
    var s := Exec(OPENING, before);
    CurrentGaugeCounts(Next(s, Flush), steps, |s.conns|);
  }

  // ---------------------------------------------------------------------------------------------
  // The bound is exact

  function Closes(k: nat): seq<Step> {
    if k == 0 then [] else [Add(0)] + Closes(k - 1)
  }

  ghost predicate Lone(s: State, calls: nat) {
    && |s.conns| == 1 && s.gauges == [1] && ConnOk(s.conns[0], 1)
    && s.conns[0].calls == calls && s.conns[0].decremented == 0
  }

  lemma {:induction false} CloseTimes(s: State, calls: nat, k: nat)
    requires Lone(s, calls)
    ensures Feasible(s, Closes(k)) && Lone(Exec(s, Closes(k)), calls + k)
    decreases k
  {
    hide Firsts;
    if k > 0 {
      FirstsStep(calls);
      assert Closes(k)[1..] == Closes(k - 1);
      CloseTimes(Next(s, Add(0)), calls + 1, k - 1);
    }
  }

  function Decrements(k: nat): seq<Step> {
    if k == 0 then [] else [Decrement(0)] + Decrements(k - 1)
  }

  lemma {:induction false} DecrementTimes(s: State, k: nat)
    requires |s.conns| == 1 && |s.gauges| == 1 && s.conns[0].generation == 0 && s.conns[0].pending >= k
    ensures Feasible(s, Decrements(k)) && Exec(s, Decrements(k)).gauges == [s.gauges[0] - k]
    decreases k
  {
    if k > 0 {
      assert Decrements(k)[1..] == Decrements(k - 1);
      DecrementTimes(Next(s, Decrement(0)), k - 1);
    }
  }

  lemma {:induction false} ExecAppend(s: State, a: seq<Step>, b: seq<Step>)
    requires Feasible(s, a) && Feasible(Exec(s, a), b)
    ensures Feasible(s, a + b) && Exec(s, a + b) == Exec(Exec(s, a), b)
    decreases |a|
  {
    hide CanStep, Next;
    if a == [] {
      assert a + b == b;
    } else {
      assert (a + b)[1..] == a[1..] + b;
      ExecAppend(Next(s, a[0]), a[1..], b);
    }
  }

  /** A run in which one connection is dialled, closed k times, and every call finishes. */
  ghost function ClosedOften(k: nat): seq<Step> {
    [Dial] + Closes(k) + Decrements(Firsts(k))
  }

  /** A single connection closed k times ends with a gauge that is negative exactly if k exceeds 2^32. */
  lemma TooManyCloses(k: nat)
    ensures Feasible(OPENING, ClosedOften(k))
    ensures Exec(OPENING, ClosedOften(k)).gauges == [1 - Firsts(k)]
    ensures Exec(OPENING, ClosedOften(k)).gauges[0] < 0 <==> k > WORD
  {
    var s := Next(OPENING, Dial);
    FirstsOfNone();
    assert [Dial][1..] == [];
    assert Feasible(OPENING, [Dial]) && Exec(OPENING, [Dial]) == s;
    assert s == State([1], [Conn(0, 0, 0, 0, 0)]);
    assert Lone(s, 0);
    CloseTimes(s, 0, k);
    ExecAppend(OPENING, [Dial], Closes(k));
    var t := Exec(OPENING, [Dial] + Closes(k));
    DecrementTimes(t, Firsts(k));
    ExecAppend(OPENING, [Dial] + Closes(k), Decrements(Firsts(k)));
  }

  // ---------------------------------------------------------------------------------------------
  // One uninterrupted Close

  class Gauge {
    var value: int
    constructor ()
      ensures value == 0
    {
      value := 0;
    }
  }

  class HostConn {
    const connOpen: Gauge
    var closed: nat

    ghost predicate Valid()
      reads this
    {
      closed < WORD
    }

    /** The part of dial that follows a successful connection. */
    constructor Dial(gauge: Gauge)
      modifies gauge
      ensures Valid() && closed == 0 && connOpen == gauge && gauge.value == old(gauge.value) + 1
    {
      connOpen, closed := gauge, 0;
      new;
      gauge.value := gauge.value + 1;
    }

    /** Close takes the connection off its own gauge when it is the first, that is when the counter was 0. */
    method Close()
      requires Valid()
      modifies this, connOpen
      ensures Valid()
      ensures closed == if old(closed) == WORD - 1 then 0 else old(closed) + 1
      ensures connOpen.value == old(connOpen.value) - if old(closed) == 0 then 1 else 0
    {
      closed := (closed + 1) % WORD;
      if closed == 1 {
        connOpen.value := connOpen.value - 1;
      }
    }
  }
}
