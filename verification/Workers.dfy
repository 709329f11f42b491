/**
 A worker goroutine and the metrics it updates. A worker runs a fixed sequence of atomic increments for every
 job; a request's outcome is an arbitrary error and status code. A counter vector is a multiset of labels:
 the multiplicity of a label is the value of its counter, the cardinality is the sum over all labels.
 */
module Workers {
  import opened Wrappers

  datatype Failure = Failure(message: string, timeout: bool)

  /** What c.Do left behind; the status code is set even when there is an error. */
  datatype Outcome = Outcome(error: Option<Failure>, code: int)

  /** The next action of a worker. */
  datatype Pc =
    | Waiting                        // at `range c.Jobsch`
    | Requesting                     // in c.Do
    | CountTimeout(o: Outcome)
    | CountError(o: Outcome)
    | LabelMessage(o: Outcome)       // withErrorMessage, before Inc
    | CountMessage(o: Outcome)
    | CountSuccess(o: Outcome)
    | LabelStatus(o: Outcome)        // withStatusCode, before Inc
    | CountStatus(o: Outcome)
    | CountTotal(o: Outcome)         // requestSum.Inc
  {
    /** A job has been received and not yet counted in requestSum. */
    predicate Busy() {
      !Waiting?
    }

    /** Actions left until the worker waits again. */
    function Rank(): (r: nat)
      ensures r <= 9 && (r == 0 <==> Waiting?)
    {
      match this
      case Waiting => 0
      case CountTotal(_) => 1
      case CountStatus(_) => 2
      case LabelStatus(_) => 3
      case CountSuccess(_) => 4
      case CountMessage(_) => 5
      case LabelMessage(_) => 6
      case CountError(_) => 7
      case CountTimeout(_) => 8
      case Requesting => 9
    }
  }

  /** One generation of the package-level metrics. */
  datatype Metrics = Metrics(
    timeouts: nat,
    errors: nat,
    messages: multiset<string>,
    success: nat,
    codes: multiset<int>,
    total: nat)

  const FRESH := Metrics(0, 0, multiset{}, 0, multiset{}, 0)

  /** The label maps of one client. */
  datatype Labels = Labels(codes: set<int>, messages: set<string>)

  const NO_LABELS := Labels({}, {})

  /** Where a worker goes once errors are dealt with. */
  function AfterError(o: Outcome, success: int): (pc: Pc)
    ensures pc.CountSuccess? <==> o.code == success
    ensures pc.CountSuccess? || pc.LabelStatus?
  {
    if o.code == success then CountSuccess(o) else LabelStatus(o)
  }

  /** Where a worker goes when c.Do returns. */
  function AfterRequest(o: Outcome, success: int): Pc {
    match o.error
    case None => AfterError(o, success)
    case Some(f) => if f.timeout then CountTimeout(o) else CountError(o)
  }

  /** The action of a busy worker; `o` is the outcome if the action is the end of c.Do. */
  function Advance(pc: Pc, o: Outcome, success: int): Pc
    requires pc.Busy()
    ensures Advance(pc, o, success).Rank() < pc.Rank()
  {
    match pc
    case Requesting => AfterRequest(o, success)
    case CountTimeout(p) => CountError(p)
    case CountError(p) => LabelMessage(p)
    case LabelMessage(p) => CountMessage(p)
    case CountMessage(p) => AfterError(p, success)
    case CountSuccess(p) => LabelStatus(p)
    case LabelStatus(p) => CountStatus(p)
    case CountStatus(p) => CountTotal(p)
    case CountTotal(_) => Waiting
  }

  /** A worker counts an error message only for a request that had an error. */
  predicate Sound(pc: Pc) {
    match pc
    case CountTimeout(o) => o.error.Some? && o.error.value.timeout
    case CountError(o) => o.error.Some?
    case LabelMessage(o) => o.error.Some?
    case CountMessage(o) => o.error.Some?
    case _ => true
  }

  lemma AdvanceIsSound(pc: Pc, o: Outcome, success: int)
    requires pc.Busy() && Sound(pc)
    ensures Sound(Advance(pc, o, success))
  {
  }

  /** What the action does to the metrics. */
  function Counted(pc: Pc, m: Metrics): Metrics
    requires Sound(pc)
  {
    match pc
    case CountTimeout(_) => m.(timeouts := m.timeouts + 1)
    case CountError(_) => m.(errors := m.errors + 1)
    case CountMessage(o) => m.(messages := m.messages + multiset{o.error.value.message})
    case CountSuccess(_) => m.(success := m.success + 1)
    case CountStatus(o) => m.(codes := m.codes + multiset{o.code})
    case CountTotal(_) => m.(total := m.total + 1)
    case _ => m
  }

  /** What the action does to the client's label maps. */
  function Labelled(pc: Pc, l: Labels): Labels
    requires Sound(pc)
  {
    match pc
    case LabelMessage(o) => l.(messages := l.messages + {o.error.value.message})
    case LabelStatus(o) => l.(codes := l.codes + {o.code})
    case _ => l
  }

  // ---------------------------------------------------------------------------------------------
  // Counting workers

  function Count<T>(ws: seq<T>, p: T -> bool): nat {
    if ws == [] then 0 else (if p(ws[0]) then 1 else 0) + Count(ws[1..], p)
  }

  lemma {:induction false} CountUpdate<T>(ws: seq<T>, i: nat, w: T, p: T -> bool)
    requires i < |ws|
    ensures Count(ws[i := w], p) + (if p(ws[i]) then 1 else 0) == Count(ws, p) + if p(w) then 1 else 0
  {
    var vs := ws[i := w];
    if i == 0 {
      assert vs[1..] == ws[1..];
    } else {
      assert vs[1..] == ws[1..][i - 1 := w];
      CountUpdate(ws[1..], i - 1, w, p);
    }
  }

  lemma {:induction false} CountAppend<T>(ws: seq<T>, vs: seq<T>, p: T -> bool)
    ensures Count(ws + vs, p) == Count(ws, p) + Count(vs, p)
  {
    if ws == [] {
      assert ws + vs == vs;
    } else {
      assert (ws + vs)[1..] == ws[1..] + vs;
      CountAppend(ws[1..], vs, p);
    }
  }

  lemma {:induction false} CountNone<T>(ws: seq<T>, p: T -> bool)
    ensures Count(ws, p) == 0 <==> forall i :: 0 <= i < |ws| ==> !p(ws[i])
  {
    if ws != [] {
      CountNone(ws[1..], p);
      if Count(ws, p) == 0 {
        forall i | 0 <= i < |ws| ensures !p(ws[i]) {
          if i > 0 {
            assert ws[i] == ws[1..][i - 1];
          }
        }
      } else if forall i :: 0 <= i < |ws| ==> !p(ws[i]) {
        forall i | 0 <= i < |ws[1..]| ensures !p(ws[1..][i]) {
          assert ws[1..][i] == ws[i + 1];
        }
      }
    }
  }
}
