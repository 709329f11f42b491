/**
 The percentages of status codes. The request total is read first and the counter of each known label after it,
 one by one, while workers keep running.
 */
module StatusReport {
  import opened Workers
  import opened Pipeline

  /** The rest of the program between two reads: the steps of `steps` that are possible, in order. */
  function Interleave(s: State, steps: seq<Step>): State
    decreases |steps|
  {
    if steps == [] then s
    else if CanStep(s, steps[0]) && !steps[0].New? then Interleave(Next(s, steps[0]), steps[1..])
    else Interleave(s, steps[1..])
  }

  /** Counters and label maps only grow within a generation. */
  ghost predicate Grown(s: State, t: State) {
    && |t.clients| == |s.clients|
    && t.stage.carried == s.stage.carried
    && s.metrics.codes <= t.metrics.codes
    && (s.clients != [] ==> s.clients[Current(s)].labels.codes <= t.clients[Current(t)].labels.codes)
  }

  lemma StepGrows(s: State, e: Step)
    requires CanStep(s, e) && !e.New?
    ensures Grown(s, Next(s, e))
  {
  }

  lemma {:induction false} InterleavingGrows(s: State, steps: seq<Step>)
    requires Good(s)
    ensures Good(Interleave(s, steps)) && Grown(s, Interleave(s, steps))
    decreases |steps|
  {
    hide Good, CanStep, Next;
    if steps != [] {
      if CanStep(s, steps[0]) && !steps[0].New? {
        StepKeepsGood(s, steps[0]);
        StepGrows(s, steps[0]);
        InterleavingGrows(Next(s, steps[0]), steps[1..]);
      } else {
        InterleavingGrows(s, steps[1..]);
      }
    }
  }

  function Percent(value: int, total: nat): real
    requires total > 0
  {
    (value as real / total as real) * 100.0
  }

  lemma PercentAdds(a: int, b: int, total: nat)
    requires total > 0
    ensures Percent(a, total) + Percent(b, total) == Percent(a + b, total)
    ensures a <= b ==> Percent(a, total) <= Percent(b, total)
  {
    assert (a + b) as real / total as real == a as real / total as real + b as real / total as real;
    if a <= b {
      assert (b as real - a as real) / total as real >= 0.0;
    }
  }

  lemma PercentOfAll(total: nat)
    requires total > 0
    ensures Percent(total, total) == 100.0 && Percent(0, total) == 0.0
  {
    assert total as real / total as real == 1.0;
  }

  ghost function Sum<T>(m: map<T, real>): real {
    if m.Keys == {} then 0.0 else
      var k :| k in m.Keys;
      m[k] + Sum(m - {k})
  }

  lemma SumOfNothing(m: map<int, real>)
    requires m == map[]
    ensures Sum(m) == 0.0
  {
  }

  lemma {:induction false} SumOf<T>(m: map<T, real>, k: T)
    requires k in m
    ensures Sum(m) == m[k] + Sum(m - {k})
    decreases |m|
  {
    var j :| j in m && Sum(m) == m[j] + Sum(m - {j});
    if j != k {
      SumOf(m - {j}, k);
      SumOf(m - {k}, j);
      assert m - {j} - {k} == m - {k} - {j};
    }
  }

  lemma SumInsert<T>(m: map<T, real>, k: T, v: real)
    requires k !in m
    ensures Sum(m[k := v]) == Sum(m) + v
  {
    SumOf(m[k := v], k);
    assert m[k := v] - {k} == m;
  }

  lemma Member<T>(s: set<T>) returns (x: T)
    requires s != {}
    ensures x in s
  {
    x :| x in s;
  }

  lemma Element<T>(m: multiset<T>) returns (x: T)
    requires |m| > 0
    ensures x in m
  {
    x :| x in m;
  }

  /** `rest` holds what `codes` has for the labels still to do. */
  ghost predicate Remaining(codes: multiset<int>, rest: multiset<int>, todo: set<int>) {
    && (forall c :: c in rest ==> c in todo)
    && (forall c :: c in todo ==> rest[c] == codes[c])
  }

  lemma RemainingAtFirst(codes: multiset<int>, todo: set<int>)
    requires forall c :: c in codes ==> c in todo
    ensures Remaining(codes, codes, todo)
  {
  }

  lemma RemainingStep(codes: multiset<int>, rest: multiset<int>, todo: set<int>, code: int)
    requires Remaining(codes, rest, todo) && code in todo
    ensures Remaining(codes, rest[code := 0], todo - {code})
    ensures |rest[code := 0]| == |rest| - codes[code]
  {
  }

  lemma RemainingDone(codes: multiset<int>, rest: multiset<int>)
    requires Remaining(codes, rest, {})
    ensures |rest| == 0
  {
    if |rest| > 0 {
      var left := Element(rest);
      assert false;
    }
  }

  /** No worker acts; everyone else may. */
  ghost predicate NoWork(steps: seq<Step>) {
    forall i :: 0 <= i < |steps| ==> !steps[i].Work?
  }

  lemma {:induction false} CountersRest(s: State, steps: seq<Step>)
    requires NoWork(steps)
    ensures Interleave(s, steps).metrics == s.metrics
    decreases |steps|
  {
    if steps != [] {
      assert !steps[0].Work?;
      assert NoWork(steps[1..]);
      CountersRest(s, steps[1..]);
      if CanStep(s, steps[0]) && !steps[0].New? {
        CountersRest(Next(s, steps[0]), steps[1..]);
      }
    }
  }

  /** Between the total and a read: a good state of the same generation, with the same counters if no worker acts. */
  ghost predicate Later(start: State, s: State, quiet: bool) {
    Good(s) && Grown(start, s) && (quiet ==> s.metrics == start.metrics)
  }

  lemma InterleavingIsLater(start: State, s: State, steps: seq<Step>, quiet: bool)
    requires Later(start, s, quiet) && (quiet ==> NoWork(steps))
    ensures Later(start, Interleave(s, steps), quiet)
  {
    InterleavingGrows(s, steps);
    if quiet {
      CountersRest(s, steps);
    }
  }

  /** Every request in the total has its status code counted under a known label. */
  lemma CoversTotal(s: State)
    requires Good(s) && s.clients != [] && s.stage.carried == 0
    ensures |s.metrics.codes| >= s.metrics.total
    ensures AllWaiting(s) ==> |s.metrics.codes| == s.metrics.total
    ensures forall c :: c in s.metrics.codes ==> c in s.clients[Current(s)].labels.codes
  {
    if AllWaiting(s) {
      WaitingCountsNothing(s, BeforeTotal);
    }
  }

  /** A label that is not among `codes` has nothing to count. */
  lemma RemainingMore(codes: multiset<int>, rest: multiset<int>, todo: set<int>, more: set<int>)
    requires Remaining(codes, rest, todo)
    requires forall c :: c in more ==> codes[c] == 0
    ensures Remaining(codes, rest, todo + more)
  {
    assert forall c :: c in more && c !in todo ==> c !in rest;
  }

  /** What the rest of the program does before the k-th read. */
  function Turn(others: seq<seq<Step>>, k: nat): seq<Step> {
    if k < |others| then others[k] else []
  }

  /** The state after the first k turns. */
  function AfterTurns(s: State, others: seq<seq<Step>>, k: nat): State {
    if k == 0 then s else Interleave(AfterTurns(s, others, k - 1), Turn(others, k - 1))
  }

  lemma TurnsDoNoWork(others: seq<seq<Step>>, k: nat)
    requires forall i :: 0 <= i < |others| ==> NoWork(others[i])
    ensures NoWork(Turn(others, k))
  {
  }

  /** What the entries read so far amount to, against the counters `codes` at the time of the total. */
  ghost predicate AtLeast(result: map<int, real>, codes: multiset<int>, rest: multiset<int>, todo: set<int>, total: nat,
                          quiet: bool)
    requires total > 0
  {
    && Remaining(codes, rest, todo)
    && result.Keys !! todo
    && (forall c :: c in codes && c !in todo ==> c in result && result[c] >= Percent(codes[c], total))
    && Sum(result) >= Percent(|codes| - |rest|, total)
    && (quiet ==> Sum(result) == Percent(|codes| - |rest|, total))
  }

  lemma ReadIsAtLeast(result: map<int, real>, codes: multiset<int>, rest: multiset<int>, todo: set<int>, total: nat,
                      quiet: bool, code: int, value: nat)
    requires total > 0 && AtLeast(result, codes, rest, todo, total, quiet) && code in todo
    requires codes[code] <= value && (quiet ==> value == codes[code])
    ensures AtLeast(result[code := Percent(value, total)], codes, rest[code := 0], todo - {code}, total, quiet)
  {
    hide Percent, Sum, Remaining;
    PercentAdds(codes[code], value, total);
    PercentAdds(|codes| - |rest|, codes[code], total);
    RemainingStep(codes, rest, todo, code);
    SumInsert(result, code, Percent(value, total));
  }

  /** The entries read so far belong to known labels and are at most what the counters say now. */
  ghost predicate AtMost(result: map<int, real>, todo: set<int>, s: State, total: nat)
    requires total > 0 && s.clients != []
  {
    && todo + result.Keys <= s.clients[Current(s)].labels.codes
    && forall c :: c in result ==> result[c] <= Percent(s.metrics.codes[c], total)
  }

  lemma ReadIsAtMost(result: map<int, real>, todo: set<int>, s: State, t: State, total: nat, code: int)
    requires total > 0 && s.clients != [] && Grown(s, t) && AtMost(result, todo, s, total) && code in todo
    ensures t.clients != []
    ensures AtMost(result[code := Percent(t.metrics.codes[code], total)], todo - {code}, t, total)
  {
    hide Percent;
    forall c | c in result ensures result[c] <= Percent(t.metrics.codes[c], total) {
      PercentAdds(s.metrics.codes[c], t.metrics.codes[c], total);
    }
  }

  lemma NothingIsAtMost(result: map<int, real>, todo: set<int>, s: State, total: nat)
    requires total > 0 && s.clients != [] && result == map[] && todo <= s.clients[Current(s)].labels.codes
    ensures AtMost(result, todo, s, total)
  {
  }

  /** Labels that have become known may join. */
  lemma MoreToRead(result: map<int, real>, codes: multiset<int>, rest: multiset<int>, todo: set<int>, s: State,
                   total: nat, quiet: bool, more: set<int>)
    requires total > 0 && s.clients != []
    requires AtLeast(result, codes, rest, todo, total, quiet) && AtMost(result, todo, s, total)
    requires more <= s.clients[Current(s)].labels.codes - todo - result.Keys
    ensures AtLeast(result, codes, rest, todo + more, total, quiet) && AtMost(result, todo + more, s, total)
  {
    hide Percent, Sum, Remaining;
    RemainingMore(codes, rest, todo, more);
  }

  lemma OneMoreTurn(s: State, others: seq<seq<Step>>, k: nat)
    ensures AfterTurns(s, others, k + 1) == Interleave(AfterTurns(s, others, k), Turn(others, k))
  {
  }

  lemma AtMostNow(result: map<int, real>, todo: set<int>, s: State, total: nat)
    requires total > 0 && s.clients != [] && AtMost(result, todo, s, total)
    ensures forall c :: c in result ==>
      c in s.clients[Current(s)].labels.codes && result[c] <= Percent(s.metrics.codes[c], total)
  {
  }

  /**
   StatusCodes. `others` is what the rest of the program does between the reads until the loop ends. A label that
   becomes known meanwhile may be visited or not: `visits` says which ones join the loop. In a generation with nothing
   carried over the percentages add up to at least 100, however the workers interleave, and to exactly 100 when all
   workers are idle and none acts in between. Each percentage is between those of the counter when the total was read
   and when the loop ends, after `turns` turns.
   */
  method StatusCodes(start: State, others: seq<seq<Step>>, visits: nat -> set<int>)
    returns (result: map<int, real>, turns: nat)
    requires Good(start) && start.clients != [] && start.stage.carried == 0
    requires start.metrics.total > 0
    ensures Sum(result) >= 100.0
    ensures AllWaiting(start) && (forall k :: 0 <= k < |others| ==> NoWork(others[k])) ==> Sum(result) == 100.0
    ensures forall c :: c in start.metrics.codes ==>
      c in result && result[c] >= Percent(start.metrics.codes[c], start.metrics.total)
    ensures var end := AfterTurns(start, others, turns);
      && end.clients != []
      && forall c :: c in result ==>
           && c in end.clients[Current(end)].labels.codes
           && result[c] <= Percent(end.metrics.codes[c], start.metrics.total)
  {
    hide Good, Percent, Sum, Remaining, Interleave, NoWork, Turn, AtMost;
    var total := start.metrics.total;
    ghost var codes := start.metrics.codes;
    ghost var quiet := AllWaiting(start) && forall k :: 0 <= k < |others| ==> NoWork(others[k]);
    CoversTotal(start);
    PercentOfAll(total);
    forall k: nat | quiet ensures NoWork(Turn(others, k)) {
      TurnsDoNoWork(others, k);
    }
    InterleavingIsLater(start, start, Turn(others, 0), quiet);
    var s := Interleave(start, Turn(others, 0));
    var todo := s.clients[Current(s)].labels.codes;
    result, turns := map[], 1;
    assert AfterTurns(start, others, 0) == start;
    ghost var rest := codes;
    RemainingAtFirst(codes, todo);
    SumOfNothing(result);
    NothingIsAtMost(result, todo, s, total);
    while todo != {}
      invariant turns >= 1 && s == AfterTurns(start, others, turns)
      invariant Later(start, s, quiet) && AtMost(result, todo, s, total)
      invariant AtLeast(result, codes, rest, todo, total, quiet)
      decreases if turns < |others| then |others| - turns else 0, todo
    {
      hide AtLeast, AfterTurns;
      ghost var some := Member(todo);
      var code :| code in todo;
      var t := Interleave(s, Turn(others, turns));
      InterleavingIsLater(start, s, Turn(others, turns), quiet);
      InterleavingGrows(s, Turn(others, turns));
      OneMoreTurn(start, others, turns);
      var value := t.metrics.codes[code];
      ReadIsAtMost(result, todo, s, t, total, code);
      ReadIsAtLeast(result, codes, rest, todo, total, quiet, code, value);
      result := result[code := Percent(value, total)];
      s, todo, rest := t, todo - {code}, rest[code := 0];
      if turns < |others| {
        var more := s.clients[Current(s)].labels.codes * visits(turns) - todo - result.Keys;
        MoreToRead(result, codes, rest, todo, s, total, quiet, more);
        todo := todo + more;
      }
      turns := turns + 1;
    }
    RemainingDone(codes, rest);
    PercentAdds(total, |codes|, total);
    AtMostNow(result, todo, s, total);
  }
}
