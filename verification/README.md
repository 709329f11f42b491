# Verification model of fasthttploader

fasthttploader is a load generator that tunes itself: a limiter goroutine fills a channel with tokens at a given
rate, `load` turns each token into a job, a pool of workers serves the jobs and counts the results in package-level
metrics, and a controller samples those metrics to change the rate and the size of the pool. This project models
that pipeline in Dafny and proves what it keeps, in every run and, where goroutines share state, in every
interleaving.

| file | what it models |
|---|---|
| `Numbers.dfy` | truncation and facts about real products |
| `RateLimiter.dfy` | the limiter with atomic ticks: class `Limiter` and its value view `Account` |
| `LimiterBounds.dfy` | rate, backlog and burst bounds over runs of the atomic limiter |
| `LimiterProtocol.dfy` | producer, ticker, controlling goroutine and `load` as small steps; the epoch balance |
| `LimiterRuns.dfy` | building runs of that protocol |
| `LimiterControl.dfy` | SetLimit, Stop and `load` return; ticks |
| `LimiterLate.dfy` | batches that SetLimit overtakes: when its promises hold, and what a whole run can push |
| `LimiterBacklog.dfy` | backlog and bursts in every interleaving of that protocol |
| `LimiterLink.dfy` | every run of the atomic limiter is a run of the protocol |
| `Workers.dfy` | a worker's sequence of increments and one generation of metrics |
| `Pipeline.dfy` | channel, feeder, queues of all clients, all workers, metrics across generations |
| `PipelineHistory.dfy` | what that state is in terms of all steps of a run: jobs, workers, counters, labels |
| `LoadStage.dfy` | the limiter protocol and the pipeline as one system |
| `StatusReport.dfy` | the status-code percentages read while workers run |
| `ClientPool.dfy` | class `Client`: RunWorkers, the life of a worker, Flush against running workers |
| `Connections.dfy` | the gauge of open connections under concurrent and repeated Close |
| `Calibration.dfy` | class `Controller`: the calibration feedback loop |
| `Series.dfy` | `rate` and `uint64SliceToString` |

Code that updates state in place is a class or a loop proved against a function of the old state; theorems are about
those functions. Where goroutines interleave, one step is one channel operation, one critical section, one counter
increment or one read of the clock, and a theorem quantifies over all feasible step sequences. Time, rates and Go's
float64 are real numbers; the clock does not run backwards. A channel of empty structs is the number of its elements.
A counter vector is a multiset of labels. An expression written `Earned(t, u, r)` is `(u - t) * r`.

The history that a theorem speaks of (tokens pushed, jobs completed, the batch under way at a SetLimit) is kept in
plain fields beside the modelled state; `LimiterProtocol.EpochAnchors` and `Pipeline.StageAnchors` say what those
fields are in terms of the steps taken.

## What the code does not do

* SetLimit says that it clears the channel, and the repository's test expects an empty channel when it returns. A
  call guarantees that exactly when the limit in force is 0, that is, for the first SetLimit only
  (`LimiterLate.SetLimitMayLeaveTokensIff`); within a call it depends on the pushes the producer has left from a
  batch it computed before (`SetLimitLeavesTokensIff`). `SetLimitCanReturnWithTokens` is a run where it fails.
* Such a late batch also sets `lastEvent` back to the time it read, so the new rate is paid for time the old rate
  was already paid for. From the moment SetLimit returns, the new rate is kept exactly when there is no such batch
  (`LimiterLate.RateKeptIff`), and a call guarantees it exactly when the limit in force is 0
  (`SetLimitMayExceedRateIff`). `WholeRunBound` says how much a whole run can push, `LateBatchIsPaidTwice` is a run
  that exceeds the rate.
* The connection gauge is exact up to and including 2^32 Close calls on a connection and too small after that
  (`Connections.GaugeExactIff`).
* The printed form of an empty slice is the empty string, which does not read back as a slice of numbers
  (`Series.RoundTripIff`).

## Model

| member | source | states |
|---|---|---|
| RateLimiter.Limiter.Tick | ratelimiter/ratelimiter.go:42-60 | one pass of the producer loop, push by push, reaches the ticked account: fill level int(tokens), surplus the fraction, nothing changed when the channel already holds that many |
| RateLimiter.Limiter.PushBatch | ratelimiter/ratelimiter.go:53-55 | n pushes raise the channel by n up to its capacity; the overflow has been received |
| RateLimiter.Limiter.SetLimit | ratelimiter/ratelimiter.go:90-97 | empty channel, rate max(1, n), lastEvent the time of the second store, surplus kept, the standing credit lost |
| RateLimiter.Limiter.StoreLimit | ratelimiter/ratelimiter.go:99-104 | rate and lastEvent change together |
| RateLimiter.Limiter.DrainChan | ratelimiter/ratelimiter.go:106-115 | the channel ends empty and every token in it is thrown away |
| RateLimiter.Limiter.constructor | ratelimiter/ratelimiter.go:25-34 | a new limiter has rate 0, zero lastEvent and an empty channel |
| LimiterBounds.CreditIsConserved | ratelimiter/ratelimiter.go:37-59 | over any run, pushed + forfeited + lost + owed credit grows by exactly the integral of the limit |
| LimiterBounds.RateSafety | ratelimiter/ratelimiter.go:36-62 | for a new limiter and any sequence of ticks, SetLimit calls and receives, all tokens ever pushed are at most the integral of the limit |
| LimiterBounds.PushedWithinAllowance | ratelimiter/ratelimiter.go:36-62 | the same from any state: at most the standing credit more |
| LimiterBounds.CarryRefinesClosedForm | ratelimiter/ratelimiter.go:45-59 | if the channel is empty at each tick, tokens pushed by a tick at t are floor(limit * (t - t0) + surplus0) |
| LimiterBounds.SchedulesAgree | ratelimiter/ratelimiter.go:45-59 | two tick schedules that end at the same time push the same number of tokens |
| LimiterBounds.IdleBacklog | ratelimiter/ratelimiter.go:45-59 | with atomic ticks: after a SetLimit, with no consumer, len(ch)^2 <= 2 * (1 + limit * gap) * (limit * T + 1) |
| LimiterBounds.BurstBound | ratelimiter/ratelimiter.go:45-59 | with atomic ticks: after a tick with backlog L the consumer gets fewer than 2 * L + limit * elapsed + 1 tokens |
| LimiterProtocol.EpochBalance | ratelimiter/ratelimiter.go:36-62 | in every interleaving, at the producer's select: at most one batch of an older limit ended in this epoch, and pushed + surplus + forfeited = stale + carried + limit * (lastEvent - base) |
| LimiterProtocol.EpochAccount | ratelimiter/ratelimiter.go:36-104 | the same from the setLimit on, with the pushes counted over the steps: a batch under way then shifts the account to the time it had read and adds what was left of it, or what the length it read left room for |
| LimiterProtocol.SurplusStaysFractional | ratelimiter/ratelimiter.go:52 | surplus is in [0, 1) and the channel within its capacity in every state |
| LimiterProtocol.EpochAnchors | ratelimiter/ratelimiter.go:90-104 | what stale, carried, base and pushed are, from the producer's position at the setLimit, the channel length it read first and the pushes since |
| LimiterProtocol.RunKeepsGood | ratelimiter/ratelimiter.go:36-104 | every interleaving of producer, SetLimit, Stop, ticker and load keeps the protocol's invariant |
| LimiterControl.DrainTerminates | ratelimiter/ratelimiter.go:94-96 | while SetLimit drains, pushes and receives together are at most 2 * committed + len(ch), and receives at most len(ch) + committed |
| LimiterControl.SetLimitReturns | ratelimiter/ratelimiter.go:90-97 | in every infinite run in which its goroutine is scheduled fairly, SetLimit returns |
| LimiterLate.SetLimitLeavesTokensIff | ratelimiter/ratelimiter.go:94-97 | after the drain a token can get in before SetLimit returns if and only if the producer is committed to pushes |
| LimiterLate.SetLimitMayLeaveTokensIff | ratelimiter/ratelimiter.go:87-97 | a call of SetLimit can return with tokens in the channel if and only if the limit in force at the call is positive |
| LimiterLate.RateKeptIff | ratelimiter/ratelimiter.go:43-59 | from the state in which SetLimit returns, every continuation keeps the new rate if and only if the producer has no batch with an older clock reading |
| LimiterLate.SetLimitMayExceedRateIff | ratelimiter/ratelimiter.go:87-97 | a call of SetLimit can return in a state from which the new rate can be exceeded if and only if the limit in force at the call is positive |
| LimiterLate.WholeRunBound | ratelimiter/ratelimiter.go:36-104 | in every interleaving, all tokens ever pushed are at most the integral of the limit plus limit * (start - now) for each late batch |
| LimiterLate.SetLimitCanReturnWithTokens | ratelimiter/ratelimiter_test.go:49-57 | a run from a new limiter in which SetLimit returns with a token in the channel |
| LimiterLate.LateBatchIsPaidTwice | ratelimiter/ratelimiter.go:57-59 | a run in which a token is pushed although no time has passed since SetLimit and nothing was carried over |
| LimiterControl.StopIsFinal | ratelimiter/ratelimiter.go:70-76 | after Stop the channel is empty in every later state and load sends at most the job it holds |
| LimiterControl.StopReturns | ratelimiter/ratelimiter.go:72-76 | in every infinite behaviour a Stop past its ticker returns, by lexicographic descent |
| LimiterControl.StoppingCanMove | loader.go:224-233 | while Stop waits, some goroutine can move |
| LimiterControl.LoadReturnsIff | loader.go:224-233 | from its start on, in every interleaving, a load loop can return at its receive if and only if its context was cancelled |
| LimiterControl.TicksArePasses | ratelimiter/ratelimiter.go:39-46 | in every interleaving each tick is worth one pass of the producer, and at most one tick is waiting |
| LimiterBacklog.IdleBacklog | ratelimiter/ratelimiter.go:37-59 | after a SetLimit that overtakes no batch, in every interleaving in which nobody consumes and the clock is read at least every gap, level^2 <= ch^2 + 2 * (1 + limit * gap) * (limit * T + 1), with ch tokens in the channel when SetLimit returns |
| LimiterBacklog.BurstBound | ratelimiter/ratelimiter.go:45-59 | once the producer has read the channel length L, in every interleaving of the epoch, load takes fewer than 2 * L + 1 + limit * elapsed tokens if the tick is skipped, and at most the computed tokens + limit * elapsed if not |
| LimiterBacklog.TakenWithinCredit | ratelimiter/ratelimiter.go:36-62 | from any state with no batch of an older limit, load takes at most what is in the channel, what the producer has credit for, and limit * elapsed |
| LimiterLink.PassIsAtomicTick | ratelimiter/ratelimiter.go:42-60 | a pass through the small-step producer, in which load only makes room, is the atomic tick, with as many pushes and receives, for batches of any size and wherever load is |
| LimiterLink.SetLimitIsAtomic | ratelimiter/ratelimiter.go:90-115 | an undisturbed SetLimit of the small-step limiter is the atomic one |
| LimiterLink.RunIsProtocolRun | ratelimiter/ratelimiter.go:36-115 | every run of ticks, SetLimit calls and receives is a run of the protocol with the same limiter at the end and as many pushes and receives |
| Pipeline.EndToEndConservation | loader.go:224-233 | in every interleaving, tokens found and pushed and burst jobs are in the channel, drained, held, queued, in flight or completed; requestSum is bounded by them plus the jobs of earlier clients |
| Pipeline.CountersAgree | fastclient/client.go:132-156 | in every interleaving of any number of workers each difference of counters is the number of workers between the two increments, less those there when the generation began |
| Pipeline.IdleCountersEqual | fastclient/client.go:136-155 | with nothing carried over and all workers idle, the sums are equal and timeouts <= errors <= requestSum |
| Pipeline.StepKeepsGood | fastclient/client.go:132-180 | each step of feeder, worker, limiter or New keeps conservation, agreement and known labels |
| Pipeline.NewKeepsGood | fastclient/client.go:54-73 | New changes nothing but the metrics and the list of clients, in particular no worker, and re-establishes the invariant with what earlier workers carry over |
| Pipeline.StageAnchors | fastclient/client.go:54-73 | the stage record is what New found and counts of the steps since, among them the requestSum increments by workers of this client and of earlier ones |
| PipelineHistory.WholeRunAccounted | loader.go:73-233 | in every run, across every New: the jobs ever sent are those queued with any client, those in the hands of any worker and the requestSum increments; tokens likewise; as many workers and clients as were started |
| PipelineHistory.ClientAccounted | fastclient/client.go:115-156 | the jobs of each client, earlier ones included, are served by its own workers or still with it |
| PipelineHistory.WorkersServeTheirClient | fastclient/client.go:115-130 | a worker serves the client that was the latest when it was started, and no other |
| PipelineHistory.WorkerBlockedIff | fastclient/client.go:136 | in every run a worker is blocked if and only if it waits at its own client's empty queue |
| PipelineHistory.CapacitiesKept | fastclient/client.go:57 | no queue and no channel ever exceeds its capacity |
| PipelineHistory.CountersTally | fastclient/client.go:136-155 | in every interleaving each counter grows by exactly the requests that end as it says, adjusted for the workers that have not counted theirs yet |
| PipelineHistory.GenerationTallies | fastclient/client.go:54-73 | from New on: timeouts, errors, each message, successes, each status code and requestSum are the requests that ended so, less those still to be counted, plus those still to be counted at New |
| PipelineHistory.IdleTallies | fastclient/client.go:136-155 | with idle workers at New and now, each counter is the number of requests that ended so |
| PipelineHistory.LabelsAreCounted | fastclient/client.go:158-180 | with nothing carried over, the current client knows exactly the codes and messages that have been counted or are about to be |
| LoadStage.RequestsAccounted | loader.go:163-189 | from the moment SetLimit returns, in every interleaving of the whole system: requestSum is at most the jobs of earlier clients, the tokens in the channel, the rest of a batch SetLimit overtook, its surplus, and limit * (clock - base) |
| LoadStage.RequestsWithinRate | loader.go:163-189 | if SetLimit overtook no batch, requestSum is less than limit * elapsed + 1 plus the jobs and tokens that were there |
| LoadStage.ConfiguredRateHolds | loader.go:65-71 | a stage whose SetLimit is the first one completes less than limit * elapsed + 1 requests, plus the jobs of earlier clients |
| LoadStage.CalibrationAccounted | loader.go:108-138 | while SetLimit is called any number of times, in every interleaving of the whole system: requestSum is at most the jobs of earlier clients, the tokens in the channel, the producer's credit, the integral of the limit, and what late batches get paid twice |
| LoadStage.StopReturns | loader.go:175-189 | in every infinite behaviour of limiter, load, queue and workers, with a full job queue or not, Stop returns |
| LoadStage.StoppingCanMove | loader.go:224-233 | while Stop waits, with channel and job queue full or not, some goroutine can move |
| LoadStage.StepKeepsGood | loader.go:224-233 | every step keeps the limiter's and the pipeline's invariants and their agreement on the channel and on load |
| StatusReport.StatusCodes | fastclient/metrics.go:215-224 | with nothing carried over the percentages add up to at least 100 while workers run and insert labels that the loop may visit or not, to exactly 100 when idle and no worker acts in between, and no counted code is missing; each percentage is at most that of the counter when the loop ends |
| ClientPool.Client.RunWorkers | fastclient/client.go:115-130 | exactly max(1, n) goroutines are started, each in the wait group before it runs; the others are untouched |
| ClientPool.Client.Run | fastclient/client.go:121-128 | one step of a worker goroutine, from counting itself to wg.Done |
| ClientPool.Client.Flush | fastclient/client.go:105-112 | Flush ends for every schedule of the workers and leaves none of them, workers 0, an empty open queue, fresh metrics and the label maps; workers receive no job after the drain |
| ClientPool.Client.Wait | fastclient/client.go:108 | on a closed queue some live worker moves, and every move lowers the measure |
| ClientPool.StepDescends | fastclient/client.go:136-156 | every step of a worker lowers ten times the queue plus the steps left |
| ClientPool.OldWorkersStaySilent | fastclient/client.go:104-112 | no goroutine started before a Flush takes any step after it |
| ClientPool.AmountLags | fastclient/client.go:75-82 | Amount never exceeds the goroutines started since the last Flush, and equals them when all have counted themselves |
| ClientPool.AmountCountsStarts | fastclient/client.go:75-130 | in every run with no Flush, exactly max(1, n) goroutines are started by each RunWorkers(n), and Amount rises by them less those that have not counted themselves |
| ClientPool.RanIsWork | fastclient/client.go:132-156 | a goroutine that receives or serves a job makes the pipeline's step of that worker; its other steps do not show there |
| Connections.GaugeCountsOpen | fastclient/client.go:193-250 | in every interleaving the gauge of a generation is the number of its connections no Close has taken off |
| Connections.GaugeExactIff | fastclient/client.go:193-250 | in every run, once no decrement is pending, the gauge of a generation is the number of its connections that were never closed if and only if none of them was closed more than 2^32 times, and otherwise too small |
| Connections.DialRemembersGauge | fastclient/client.go:204-213 | in every run the i-th connection belongs to the generation numbered by the flushes before its dial |
| Connections.ConnOpenCounts | fastclient/client.go:204-250 | the current gauge is the dials since the latest flush less the decrements for the connections they made |
| Connections.CallsAreCounted | fastclient/client.go:244-250 | the calls and decrements recorded for a connection are its Close and decrement steps |
| Connections.TooManyCloses | fastclient/client.go:244-250 | a connection closed k times leaves a negative gauge if and only if k > 2^32 |
| Connections.StepKeepsGood | fastclient/client.go:204-250 | dial, flush, add and decrement keep each gauge at dials less decrements of its own generation |
| Connections.HostConn.Dial | fastclient/client.go:204-213 | the current gauge is incremented and remembered |
| Connections.HostConn.Close | fastclient/client.go:244-250 | an undisturbed Close decrements its own gauge exactly when the counter was 0 |
| Calibration.Controller.Calibrate | loader.go:142-161 | one sample changes await, multiplier, errors, limit and pool as judged |
| Calibration.Controller.CheckFlaw | loader.go:215-222 | flawed exactly if the first read is positive and the second differs from the stored errors, which then become the third read |
| Calibration.Controller.SetLimit | ratelimiter/ratelimiter.go:90-97 | the limit becomes max(1, n) |
| Calibration.Controller.RunWorkers | fastclient/client.go:115-130 | max(1, n) more workers |
| Calibration.Controller.constructor | loader.go:113-114 | the stage starts with limit max(1, qps), max(1, c) workers and multiplier 0.1 |
| Calibration.SamplesAccounted | loader.go:142-161 | N + await = 2 * (limit raises + worker raises) + 4 * flaw verdicts, with await <= 3 |
| Calibration.SampleDecides | loader.go:142-161 | in every run, a sample taken while await is positive only counts it down; otherwise exactly one happens: new errors divide the multiplier by 1.2, else a job queue that is not empty starts max(1, share) workers, else the limit rises by limit * multiplier |
| Calibration.MultiplierIsCare | loader.go:157-159 | multiplier = 0.1 / 1.2^k after k flaw verdicts, always in (0, 0.1] |
| Calibration.LimitIsProduct | loader.go:153-156 | the limit is max(1, qps) times the product of 1 + multiplier over the raises, and never falls |
| Calibration.LimitBounded | loader.go:142-161 | after N samples the limit is at most max(1, qps) * (11/10)^ceil(N/2) |
| Calibration.PoolGrowth | loader.go:149-152 | after k worker raises spawned >= w0 + k and spawned + 10 <= (11/10)^k * (w0 + 10) |
| Calibration.FlawsNeedErrors | loader.go:215-222 | flaw verdicts never exceed the error counter, even when it moves between the reads of one sample |
| Series.Rate | report/utils.go:29-47 | each point of a rise is the rise divided by step, a drop and the first point are 0, and a step of 0 gives infinities and NaN |
| Series.AreaIsChangePlusDrops | report/utils.go:29-47 | the area under the rate up to n is sl[n] - sl[0] plus all drops |
| Series.NondecreasingIsRecovered | report/utils.go:29-47 | a counter that never drops is recovered from its first value and its rate |
| Series.RecoveredIff | report/utils.go:39-42 | a sample is recovered if and only if no drop precedes it |
| Series.Uint64SliceToString | report/utils.go:12-18 | the decimal int64 forms joined by commas; a non-empty slice can be read back |
| Series.DecimalFormIff | report/utils.go:12-18 | the printed form of a natural number is the one decimal numeral without leading zeros that reads as it |
| Series.PrintedIsRead | report/utils.go:12-18 | splitting, parsing int64 and taking the bits as uint64 inverts the printer |
| Series.RoundTripIff | report/utils.go:12-18 | the round trip holds exactly for non-empty slices |

## Left out

- RateLimiter.Limiter.Tick: a batch that does not fit into the channel ends only once the consumer has taken the overflow, so those receives are part of the tick; ticks do not overlap SetLimit here, the protocol model covers that.
- RateLimiter.Limiter.SetLimit: the drain meets no concurrent producer, as in the protocol model; Stop is modelled only there.
- RateLimiter.Limiter.DrainChan: no token enters while it drains; the protocol model covers that.
- LimiterBounds.RateSafety: for ticks that SetLimit does not overtake; LimiterLate.WholeRunBound is the bound for all interleavings.
- LimiterBounds.PushedWithinAllowance: for ticks that SetLimit does not overtake, like RateSafety.
- LimiterBounds.IdleBacklog: for ticks that SetLimit does not overtake; LimiterBacklog.IdleBacklog is the bound for all interleavings.
- LimiterBounds.BurstBound: for ticks that SetLimit does not overtake; LimiterBacklog.BurstBound is the bound for all interleavings.
- LimiterBacklog.IdleBacklog: for a SetLimit that overtakes no batch; one that overtakes a batch may be exceeded by its rest and by what it is paid twice, as in LimiterLate.
- LimiterLink.PassIsAtomicTick: a batch that does not fit while no load loop runs needs one to be started, which the goroutine inside SetLimit or Stop cannot do.
- LimiterControl.StopReturns: assumes that `load` can always hand its job on; LoadStage.StopReturns does without.
- LimiterControl.StoppingCanMove: likewise.
- LoadStage.StopReturns: assumes that the load loop's context is not cancelled before Stop returns and that no worker is started meanwhile (as in makeLoad), that the current client has a worker, and that time does not pass forever while a goroutine can move.
- Calibration.Controller.SetLimit: only its effect on the limit; the limiter modules have the rest.
- Connections.TooManyCloses: one connection and one schedule, as a witness; Connections.GaugeExactIff is the statement for all runs.
- StatusReport.StatusCodes: needs requestSum > 0, where Go would produce NaN.
- ClientPool.Client.Flush: assumes that every request ends, and that nobody sends jobs or calls RunWorkers during the call.
- float64 rounding, the range of int and time.Duration, and the 8-digit printing of float64 slices: reals and unbounded integers instead.
- HTTP and TCP work: a request is an arbitrary pair of an optional error and a status code; dialling is the moment the gauge changes.
- Prometheus registration, the duration summary and the scratch metric shared by the getters: counters are atomic naturals.
- A metric reference read just before a flush and incremented just after it: reading the package variable and incrementing are one step, and so are the two statements of dial that use the gauge.
- The 2% error test of the burst stage, which divides unsigned integers.
- ErrorMessages, byte counters and connection errors: loops and increments of the same shape as those modelled.
- Address parsing, flags, progress bars, printing, HTML templates, browser commands, profiling.
