/**
 The controller of the calibration stage. Every sample it either waits, starts more workers, raises the limit, or
 finds new errors and becomes more careful. A sample holds what the client reported: up to three reads of the
 error counter, the length of the job queue and the number of workers that have counted themselves.
 */
module Calibration {
  import opened Numbers
  import RateLimiter

  datatype Sample = Sample(first: nat, second: nat, third: nat, overflow: nat, amount: nat)

  datatype Verdict = Waited | MoreWorkers | HigherLimit | Flawed

  /** The package variables and what the stage has built up. */
  datatype Control = Control(await: nat, multiplier: real, errors: nat, limit: real, spawned: nat)

  /** The branches of calibrate; each use of client.Errors() in isFlawed is a read of its own. */
  function Judge(c: Control, s: Sample): Verdict {
    if c.await > 0 then Waited
    else if s.first > 0 && c.errors != s.second then Flawed
    else if s.overflow > 0 then MoreWorkers
    else HigherLimit
  }

  /** RunWorkers starts at least one worker. */
  function AtLeastOne(n: int): (m: nat)
    ensures m >= 1 && m >= n && (m == n || m == 1)
  {
    if n < 1 then 1 else n
  }

  function Calibrated(c: Control, s: Sample): Control {
    match Judge(c, s)
    case Waited => c.(await := c.await - 1)
    case MoreWorkers => c.(spawned := c.spawned + AtLeastOne(Trunc(s.amount as real * c.multiplier)), await := 1)
    case HigherLimit => c.(limit := RateLimiter.Effective(c.limit * (1.0 + c.multiplier)), await := 1)
    case Flawed => c.(multiplier := c.multiplier / 1.2, errors := s.third, await := 3)
  }

  /** SetLimit(cfg.qps) and RunWorkers(cfg.c) with the initial package variables. */
  function Opening(qps: real, workers: int): Control {
    Control(0, 0.1, 0, RateLimiter.Effective(qps), AtLeastOne(workers))
  }

  /** The controller's package variables as the Go program updates them. */
  class Controller {
    var await: nat
    var multiplier: real
    var errors: nat
    var limit: real
    var spawned: nat

    ghost function View(): Control
      reads this
    {
      Control(await, multiplier, errors, limit, spawned)
    }

    constructor (qps: real, workers: int)
      ensures View() == Opening(qps, workers)
      ensures limit == Max(1.0, qps) && spawned == AtLeastOne(workers)
      ensures await == 0 && multiplier == 0.1 && errors == 0
    {
      await, multiplier, errors := 0, 0.1, 0;
      limit := if qps < 1.0 then 1.0 else qps;
      spawned := if workers < 1 then 1 else workers;
    }

    method CheckFlaw(s: Sample) returns (flawed: bool)
      modifies this`errors
      ensures flawed <==> s.first > 0 && s.second != old(errors)
      ensures errors == if flawed then s.third else old(errors)
    {
      if s.first > 0 && errors != s.second {
        errors := s.third;
        return true;
      }
      return false;
    }

    method SetLimit(n: real)
      modifies this`limit
      ensures limit == Max(1.0, n)
    {
      limit := n;
      if limit < 1.0 {
        limit := 1.0;
      }
    }

    method RunWorkers(n: int)
      modifies this`spawned
      ensures spawned == old(spawned) + AtLeastOne(n)
    {
      var i, m := 0, n;
      if m < 1 {
        m := 1;
      }
      while i < m
        invariant 0 <= i <= m && spawned == old(spawned) + i
      {
        spawned, i := spawned + 1, i + 1;
      }
    }

    method Calibrate(s: Sample)
      modifies this
      ensures View() == Calibrated(old(View()), s)
    {
      if await > 0 {
        await := await - 1;
        return;
      }
      var flawed := CheckFlaw(s);
      if !flawed {
        if s.overflow > 0 {
          RunWorkers(Trunc(s.amount as real * multiplier));
          await := await + 1;
        } else {
          SetLimit(limit * (1.0 + multiplier));
          await := await + 1;
        }
      } else {
        multiplier := multiplier / 1.2;
        await := await + 3;
      }
    }
  }

  // ---------------------------------------------------------------------------------------------
  // One sample

  /** A sample that finds new errors: the first read is positive and the second differs from the errors noted last. */
  predicate NewErrors(c: Control, s: Sample) {
    s.first > 0 && s.second != c.errors
  }

  /** What the workers' share of `amount` comes to: rounded down, and at least one. */
  ghost predicate IsShare(n: int, share: real) {
    n >= 1 && (if share < 1.0 then n == 1 else n as real <= share < n as real + 1.0)
  }

  /**
   What one sample does to a stage whose limit and multiplier are in range. While await is positive it only counts down.
   Otherwise exactly one of three things happens: new errors lower the multiplier, else a job queue that is not empty
   starts more workers, else the limit rises.
   */
  ghost predicate Responds(c: Control, s: Sample, d: Control) {
    && (c.await > 0 ==> d == c.(await := c.await - 1))
    && (d.multiplier < c.multiplier <==> c.await == 0 && NewErrors(c, s))
    && (d.spawned > c.spawned <==> c.await == 0 && !NewErrors(c, s) && s.overflow > 0)
    && (d.limit > c.limit <==> c.await == 0 && !NewErrors(c, s) && s.overflow == 0)
    && (d.multiplier < c.multiplier ==>
          1.2 * d.multiplier == c.multiplier && d.await == 3 && d.errors == s.third
          && d.spawned == c.spawned && d.limit == c.limit)
    && (d.spawned > c.spawned ==>
          IsShare(d.spawned - c.spawned, s.amount as real * c.multiplier) && d.await == 1 && d.errors == c.errors
          && d.multiplier == c.multiplier && d.limit == c.limit)
    && (d.limit > c.limit ==>
          d.limit - c.limit == c.limit * c.multiplier && d.await == 1 && d.errors == c.errors
          && d.multiplier == c.multiplier && d.spawned == c.spawned)
  }

  lemma SampleResponds(c: Control, s: Sample)
    requires c.limit >= 1.0 && c.multiplier > 0.0
    ensures Responds(c, s, Calibrated(c, s))
  {
    MulMono(1.0, 1.0 + c.multiplier, c.limit);
    assert c.limit * (1.0 + c.multiplier) == c.limit + c.limit * c.multiplier;
    assert c.limit * c.multiplier > 0.0;
    MulNonNeg(s.amount as real, c.multiplier);
  }

  // ---------------------------------------------------------------------------------------------
  // Runs

  function Run(c: Control, samples: seq<Sample>): Control {
    if samples == [] then c
    else Calibrated(Run(c, samples[..|samples| - 1]), samples[|samples| - 1])
  }

  /** How often the run came to a verdict. */
  function Verdicts(c: Control, samples: seq<Sample>, v: Verdict): nat {
    if samples == [] then 0
    else
      var rest := samples[..|samples| - 1];
      Verdicts(c, rest, v) + if Judge(Run(c, rest), samples[|samples| - 1]) == v then 1 else 0
  }

  lemma PowGrows(b: real, p: real)
    requires b > 0.0 ==> p > 0.0
    requires b >= 1.0 ==> p >= 1.0
    ensures b > 0.0 ==> Times(b, p) > 0.0
    ensures b >= 1.0 ==> Times(b, p) >= p
  {
    if b >= 1.0 {
      MulMono(1.0, b, p);
    }
  }

  function Pow(b: real, n: nat): (p: real)
    ensures b > 0.0 ==> p > 0.0
    ensures b >= 1.0 ==> p >= 1.0
  {
    if n == 0 then 1.0
    else
      var p := Pow(b, n - 1);
      PowGrows(b, p);
      Times(b, p)
  }

  lemma {:induction false} PowMono(b: real, m: nat, n: nat)
    requires b >= 1.0 && m <= n
    ensures Pow(b, m) <= Pow(b, n)
    decreases n
  {
    if m < n {
      PowMono(b, m, n - 1);
      PowGrows(b, Pow(b, n - 1));
    }
  }

  /** What k flaw verdicts have made of the multiplier. */
  function Care(k: nat): real {
    0.1 / Pow(1.2, k)
  }

  lemma DivDiv(x: real, y: real, z: real)
    requires y > 0.0 && z > 0.0 && Times(z, y) > 0.0
    ensures x / Times(z, y) == x / y / z
  {
    assert (x / y / z) * (z * y) == ((x / y / z) * z) * y == x;
  }

  lemma DivAtLeastOne(x: real, y: real)
    requires x > 0.0 && y >= 1.0
    ensures 0.0 < x / y <= x
  {
  }

  lemma CareStep(k: nat)
    ensures Care(k + 1) == Care(k) / 1.2
    ensures 0.0 < Care(k) <= 0.1
  {
    DivDiv(0.1, Pow(1.2, k), 1.2);
    DivAtLeastOne(0.1, Pow(1.2, k));
  }

  /** What the run's last sample multiplies the limit by, given the flaws found before it. */
  function Factor(c: Control, rest: seq<Sample>, s: Sample): real {
    if Judge(Run(c, rest), s).HigherLimit? then 1.0 + Care(Verdicts(c, rest, Flawed)) else 1.0
  }

  /** The product of 1 + multiplier over all limit raises, with multiplier = 0.1 / 1.2^(flaws found before). */
  function Growth(c: Control, samples: seq<Sample>): real {
    if samples == [] then 1.0
    else
      var rest := samples[..|samples| - 1];
      Times(Growth(c, rest), Factor(c, rest, samples[|samples| - 1]))
  }

  /**
   Every sample is paid for: a raise takes two samples, a flaw verdict four, and `await` is what is still owed.
   */
  ghost predicate Accounted(n: nat, c: Control, limits: nat, workers: nat, flaws: nat) {
    && n + c.await == 2 * (limits + workers) + 4 * flaws
    && c.await <= 3
    && (flaws == 0 ==> c.await <= 1)
  }

  lemma {:induction false} SamplesAccounted(qps: real, w: int, samples: seq<Sample>)
    ensures var c := Opening(qps, w);
      Accounted(|samples|, Run(c, samples), Verdicts(c, samples, HigherLimit), Verdicts(c, samples, MoreWorkers),
                Verdicts(c, samples, Flawed))
    decreases |samples|
  {
    if samples != [] {
      SamplesAccounted(qps, w, samples[..|samples| - 1]);
    }
  }

  lemma CareAtFirst()
    ensures Care(0) == 0.1
  {
  }

  /** multiplier = 0.1 / 1.2^k after k flaw verdicts; in particular it is always positive. */
  lemma {:induction false} MultiplierIsCare(qps: real, w: int, samples: seq<Sample>)
    ensures var c := Opening(qps, w); Run(c, samples).multiplier == Care(Verdicts(c, samples, Flawed))
    ensures 0.0 < Run(Opening(qps, w), samples).multiplier <= 0.1
    decreases |samples|
  {
    hide Care;
    var c := Opening(qps, w);
    CareAtFirst();
    if samples != [] {
      var rest := samples[..|samples| - 1];
      MultiplierIsCare(qps, w, rest);
      CareStep(Verdicts(c, rest, Flawed));
    }
    CareStep(Verdicts(c, samples, Flawed));
  }

  /** One sample's effect on a limit that is at least 1: SetLimit's floor does not apply. */
  lemma LimitStep(d: Control, s: Sample)
    requires d.limit >= 1.0 && d.multiplier > 0.0
    ensures Calibrated(d, s).limit == Times(d.limit, if Judge(d, s).HigherLimit? then 1.0 + d.multiplier else 1.0)
    ensures Calibrated(d, s).limit >= d.limit
  {
    MulMono(1.0, 1.0 + d.multiplier, d.limit);
  }

  /** The limit is exactly the initial one times the growth of all raises, and never falls. */
  lemma {:induction false} LimitIsProduct(qps: real, w: int, samples: seq<Sample>)
    ensures var c := Opening(qps, w); Run(c, samples).limit == Times(c.limit, Growth(c, samples))
    ensures Run(Opening(qps, w), samples).limit >= 1.0
    ensures samples != [] ==>
      Run(Opening(qps, w), samples).limit >= Run(Opening(qps, w), samples[..|samples| - 1]).limit
    decreases |samples|
  {
    hide Care, Calibrated, Judge, Times, Verdicts;
    TimesOne(Opening(qps, w).limit);
    if samples != [] {
      var c, rest, s := Opening(qps, w), samples[..|samples| - 1], samples[|samples| - 1];
      LimitIsProduct(qps, w, rest);
      MultiplierIsCare(qps, w, rest);
      LimitStep(Run(c, rest), s);
      TimesAssociates(c.limit, Growth(c, rest), Factor(c, rest, s));
    }
  }

  /** In every run each sample has exactly the effect described above, whatever came before it. */
  lemma SampleDecides(qps: real, w: int, samples: seq<Sample>, s: Sample)
    ensures Responds(Run(Opening(qps, w), samples), s, Run(Opening(qps, w), samples + [s]))
  {
    hide Responds, Calibrated;
    var all := samples + [s];
    assert all[..|all| - 1] == samples && all[|all| - 1] == s;
    LimitIsProduct(qps, w, samples);
    MultiplierIsCare(qps, w, samples);
    SampleResponds(Run(Opening(qps, w), samples), s);
  }

  lemma {:induction false} GrowthBounded(qps: real, w: int, samples: seq<Sample>)
    ensures var c := Opening(qps, w); 0.0 < Growth(c, samples) <= Pow(1.1, Verdicts(c, samples, HigherLimit))
    decreases |samples|
  {
    hide Care, Times, Run, Judge;
    if samples != [] {
      var c, rest, s := Opening(qps, w), samples[..|samples| - 1], samples[|samples| - 1];
      GrowthBounded(qps, w, rest);
      var k := Verdicts(c, rest, HigherLimit);
      CareStep(Verdicts(c, rest, Flawed));
      TimesOne(Growth(c, rest));
      TimesMono(Growth(c, rest), Pow(1.1, k), Factor(c, rest, s), 1.1);
      TimesCommutes(Pow(1.1, k), 1.1);
    }
  }

  /**
   Over every run of N samples the limit is max(1, qps) times the product of its raises, and at most
   max(1, qps) * (11/10)^ceil(N/2).
   */
  lemma LimitBounded(qps: real, w: int, samples: seq<Sample>)
    ensures Run(Opening(qps, w), samples).limit <= Times(Max(1.0, qps), Pow(1.1, (|samples| + 1) / 2))
  {
    hide Run, Verdicts, Growth, Pow, Times;
    var c := Opening(qps, w);
    var raises := Verdicts(c, samples, HigherLimit);
    LimitIsProduct(qps, w, samples);
    SamplesAccounted(qps, w, samples);
    GrowthBounded(qps, w, samples);
    PowMono(1.1, raises, (|samples| + 1) / 2);
    TimesMono(c.limit, c.limit, Growth(c, samples), Pow(1.1, (|samples| + 1) / 2));
  }

  // ---------------------------------------------------------------------------------------------
  // The pool

  /** Amount never exceeds the goroutines that were started; it may lag behind. */
  ghost predicate AmountsLag(c: Control, samples: seq<Sample>) {
    forall i :: 0 <= i < |samples| ==> samples[i].amount <= Run(c, samples[..i]).spawned
  }

  lemma ShareBound(a: real, m: real, n: real)
    requires 0.0 <= a <= n && 0.0 < m <= 0.1
    ensures 0.0 <= a * m <= 0.1 * n
  {
    MulNonNeg(a, m);
    MulMono(m, 0.1, a);
  }

  lemma PoolStep(d: Control, s: Sample)
    requires s.amount <= d.spawned && 0.0 < d.multiplier <= 0.1
    ensures var next := Calibrated(d, s).spawned;
      if Judge(d, s).MoreWorkers? then
        next > d.spawned && next as real + 10.0 <= 1.1 * (d.spawned as real + 10.0)
      else next == d.spawned
  {
    var share := s.amount as real * d.multiplier;
    ShareBound(s.amount as real, d.multiplier, d.spawned as real);
    assert AtLeastOne(Trunc(share)) as real <= share + 1.0;
  }

  /** The pool grows by at least one worker per raise and at most like (11/10)^k. */
  lemma {:induction false} PoolGrowth(qps: real, w: int, samples: seq<Sample>)
    requires AmountsLag(Opening(qps, w), samples)
    ensures var c := Opening(qps, w);
      var k := Verdicts(c, samples, MoreWorkers);
      && Run(c, samples).spawned >= c.spawned + k
      && Run(c, samples).spawned as real + 10.0 <= Times(Pow(1.1, k), c.spawned as real + 10.0)
    decreases |samples|
  {
    hide Care, Calibrated, Judge, Times;
    TimesOne(Opening(qps, w).spawned as real + 10.0);
    if samples != [] {
      var c, n := Opening(qps, w), |samples| - 1;
      var rest := samples[..n];
      forall i | 0 <= i < |rest| ensures rest[i].amount <= Run(c, rest[..i]).spawned {
        assert rest[..i] == samples[..i] && rest[i] == samples[i];
      }
      PoolGrowth(qps, w, rest);
      MultiplierIsCare(qps, w, rest);
      var d, s, k := Run(c, rest), samples[n], Verdicts(c, rest, MoreWorkers);
      PoolStep(d, s);
      if Judge(d, s).MoreWorkers? {
        var bound := Times(Pow(1.1, k), c.spawned as real + 10.0);
        TimesAssociates(1.1, Pow(1.1, k), c.spawned as real + 10.0);
        TimesIs(1.1, bound);
      }
    }
  }

  // ---------------------------------------------------------------------------------------------
  // Flaw verdicts and errors

  /** The error counter never falls, neither within a sample nor between samples, and starts at 0. */
  ghost predicate CounterRises(samples: seq<Sample>) {
    && (forall i :: 0 <= i < |samples| ==> samples[i].first <= samples[i].second <= samples[i].third)
    && (forall i, j :: 0 <= i < j < |samples| ==> samples[i].third <= samples[j].first)
  }

  /** Each flaw verdict needs at least one new error, even when the counter moves between its reads. */
  lemma {:induction false} FlawsNeedErrors(qps: real, w: int, samples: seq<Sample>)
    requires CounterRises(samples)
    ensures var c := Opening(qps, w);
      && Verdicts(c, samples, Flawed) <= Run(c, samples).errors
      && (samples == [] ==> Run(c, samples).errors == 0)
      && (samples != [] ==> Run(c, samples).errors <= samples[|samples| - 1].third)
    decreases |samples|
  {
    if samples != [] {
      var rest := samples[..|samples| - 1];
      assert CounterRises(rest);
      FlawsNeedErrors(qps, w, rest);
    }
  }
}
