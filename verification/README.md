# Formal model of the inference scaler, its mock engine and its benchmark judge

This project models, in Dafny 4.11, the read path of the KEDA inference scaler (the TTL cache with singleflight,
the readiness signal, the composite score, the streaming poll loop and the configuration it runs on), the decode
slots and token stream of the metrics-faithful vLLM mock, and the reply parsing and blind judging of the benchmark
harness, and proves properties of them. `dafny verify dfyconfig.toml` checks everything.

## How the model is built

Times and durations are integers in nanoseconds; `time.Duration` wraps as int64 where that matters (the stream
loop). Readings are exact reals. Whatever the program takes from outside (the clock, the backend's answers, parsed
strings, the order of events, the shuffle) is a parameter.

| file | what it models |
|---|---|
| `metrics.dfy` | samples, errors, the cache key, and `CachingSource` as a mutable object used by one caller |
| `flights.dfy` | any number of `Get` calls interleaved at every preemption point, over the shared map and the singleflight table |
| `flight_theorems.dfy` | what every such run guarantees, and runs showing where a promise stops |
| `progress.dfy` | no call is stuck and only finitely many moves remain |
| `sequential.dfy`, `sequential_runs.dfy` | calls that do not overlap, and that they are runs of the concurrent system |
| `health.dfy`, `readiness.dfy` | the readiness object, and `queryInstant` composed with the concurrent cache |
| `saturation.dfy`, `fork_join.dfy` | the score, and the two-goroutine query group under every schedule |
| `cached_decision.dfy` | a decision's two reads, overlapping each other and everybody else's, against the bare source |
| `decisions.dfy`, `decision_theorems.dfy`, `shared_cancellation.dfy` | any number of whole decisions over one cache: goroutine groups, contexts and flights together |
| `config.dfy`, `stream.dfy` | metadata parsing and the polling loop with backoff |
| `slots.dfy`, `sse.dfy` | the mock's slot accounting and its token stream, as step systems and as objects |
| `extract_json.dfy`, `judge.dfy` | brace scanning over RFC 8259 texts, and label blinding |
| `wrappers.dfy` | `Option` |

In the step systems an action that is not enabled changes nothing, so every finite sequence of actions is a run and
the theorems quantify over all of them. Fields such as `origin`, the list of flights and the phase instants are
history: the program's own state is the map, the table, the counters and the queue.

`singleflight.Do` has its documented meaning: the first caller for a key runs the function, callers that arrive
before it returns get the same pair, then the key is free. An errgroup keeps its first error and then cancels its
context, and cancels it anyway once `Wait` returns. Every `await` of the mock is a point where another task may run:
the ones that take a lock or a slot, and the one inside the lock before the gauges are set.
`WholeStretchesNeverOvershoot` is about the schedules in which tasks switch only where an await has to wait, which is
how asyncio treats a free lock.

## Where code and documentation differ

The model follows the code. Each difference is a lemma.

- A cache hit is promised for readings "younger than ttl". The expiry is the storing flight's TTL, so a reader with
  a shorter TTL can get an older reading and one with a longer TTL can be refused a young enough one
  (`ReaderTtlHonouredIff`). An entry is still served at the very instant it expires, so "younger" holds only under a
  storing TTL shorter than the reader's (same lemma, last clause).
- The key comment says a NUL cannot appear in its inputs. Nothing enforces that; two queries can be answered with
  each other's samples exactly when the keys collide (`MixUpIffKeysCollide`), which takes a NUL in an address.
- One upstream call per TTL window holds for calls that do not overlap, and for the lookups behind flights under any
  interleaving, but not for the flights themselves: within the window as many more can start as other calls of the
  key were under way at the store (`OverlappingMissesFetchAgain`), and no more (`FlightsInWindowAreBounded`).
- A follower can be handed the cancellation of its leader's context (`FollowerInheritsCancellation`). A hard failure is
  said to cancel the decision's other query. It can also fail other decisions whose requests are live, and those
  others again: among any decisions, exactly the ones linked to it by a chain of decisions that have a cache key in
  common (`SpreadsIffLinked`; `TakenDownIffQueryShared` is the direct case of two decisions and nobody else). An
  abandoned request spreads in the same way.
- Ready is documented as "answered successfully within the window", an answer being a value or ErrMissing, whatever
  failed in between. It outlives that in two ways. Cache hits record success too:
  without any delay the last real answer can be past the window by anything less than the TTL, and no more
  (`StaleReadyIff`). And success is recorded some time after the answer came (the store, the follower's wake-up and
  the recording itself may all wait), which with or without caching stretches the window by that time
  (`DelayedStaleReadyIff`). `ReadyOutlivesAnswersIff` is the condition on a given state, `ReadyMeansARecentAnswer` the
  true bound.
- The backoff doubles "up to" eight intervals. In int64 that is so exactly for the intervals and limits of
  `WaitsAsDocumentedIff`; configuration parsing lets larger intervals through (`ParsedIntervalCanWrap`).
- `release` comes before the running decrement, so if tasks switch between the two, the running count passes capacity
  (`RunningCanOvershoot`, exactly by how much in `RunningWithinCapacityIff`); and the gauges are set after the
  counters, so they show them exactly while nobody holds the lock (`GaugesCurrentIff`). Where tasks switch only at an
  await that has to wait, neither is ever observed (`WholeStretchesNeverOvershoot`).
- The mock's usage field echoes a negative `max_tokens` although no token is generated (`Accumulate`).
- `_extract_json` is described as finding the first balanced object. It only tries the first brace, so that holds
  exactly for the texts whose first brace closes if any does (`FirstObjectIsPickedIff`; `UnclosedBraceHidesTheRest` is
  the family that fails), and it counts braces inside strings (`BraceInStringCutsShort`).

## Model

| member | source | states |
|---|---|---|
| Metrics.KeysCollideExactlyWhen | phase-2-capstone/keda-inference-scaler/internal/metrics/cache.go:50-55 | two keys are equal iff the (addr, query) pairs are, or the longer address contains the shorter one, a NUL and the rest; so a NUL-free longer address never collides |
| Metrics.KeyIdentifiesIffNoNul | phase-2-capstone/keda-inference-scaler/internal/metrics/cache.go:50-55 | an address has unambiguous keys iff it carries no NUL byte |
| Metrics.CacheKeyInjective | phase-2-capstone/keda-inference-scaler/internal/metrics/cache.go:50-55 | between NUL-free addresses the key determines address and query |
| Metrics.CachingSource.constructor | phase-2-capstone/keda-inference-scaler/internal/metrics/cache.go:46-48 | starts empty |
| Metrics.CachingSource.Load | phase-2-capstone/keda-inference-scaler/internal/metrics/cache.go:92-100 | hits iff an entry exists and its expiry is not strictly past, returning that entry's pair; a miss returns the zero pair |
| Metrics.CachingSource.Store | phase-2-capstone/keda-inference-scaler/internal/metrics/cache.go:102-106 | rewrites exactly one key, expiring ttl after the store |
| Metrics.CachingSource.Get | phase-2-capstone/keda-inference-scaler/internal/metrics/cache.go:73-90 | a live entry is returned without asking the backend and without touching the map; otherwise the backend's pair, and with a positive TTL a value and ErrMissing are kept for the TTL from the store while a cancellation and any other failure are not |
| Metrics.ReaderTtlHonouredIff | phase-2-capstone/keda-inference-scaler/internal/metrics/cache.go:57-60 | an entry is served at exactly the ages up to its reader's TTL iff the storing TTL equals it, at no greater age iff the storing TTL is no longer, and only at ages below it (the promise) iff the storing TTL is shorter |
| Flights.NextGrows | phase-2-capstone/keda-inference-scaler/internal/metrics/cache.go:73-90 | every step only adds calls and flights and moves a flight one stage forward, with the step's clock reading |
| Flights.LookUpKeeps | phase-2-capstone/keda-inference-scaler/internal/metrics/cache.go:76-80 | the lookup step keeps the invariant of the whole system |
| Flights.EnterDoKeeps | phase-2-capstone/keda-inference-scaler/internal/metrics/cache.go:82 | joining or starting a flight keeps it |
| Flights.ReplyKeeps | phase-2-capstone/keda-inference-scaler/internal/metrics/cache.go:83 | the upstream answer arriving keeps it |
| Flights.SettleKeeps | phase-2-capstone/keda-inference-scaler/internal/metrics/cache.go:84-86 | the conditional store keeps it |
| Flights.LandKeeps | phase-2-capstone/keda-inference-scaler/internal/metrics/cache.go:87-89 | the flight returning and its key being freed keeps it |
| Flights.WakeKeeps | phase-2-capstone/keda-inference-scaler/internal/metrics/cache.go:89 | a follower returning keeps it |
| Flights.RunInv | phase-2-capstone/keda-inference-scaler/internal/metrics/cache.go:53-106 | every state of every run satisfies it: table and flights in the air correspond one to one, every entry is the last write of its key with the writer's TTL, every caller's answer is its flight's |
| FlightTheorems.OneFlightPerQuery | phase-2-capstone/keda-inference-scaler/internal/metrics/cache.go:73-90 | at most one flight is in the air per (addr, query) |
| FlightTheorems.AnswerIsOneUpstreamAnswer | phase-2-capstone/keda-inference-scaler/internal/metrics/cache.go:73-90 | a finished Get returns unchanged the pair of one upstream call of its own key, hence of its own (addr, query) when the addresses are NUL-free |
| FlightTheorems.MixUpIffKeysCollide | phase-2-capstone/keda-inference-scaler/internal/metrics/cache.go:50-90 | some run answers one query with another's upstream answer iff their keys are equal |
| FlightTheorems.BoundedStaleness | phase-2-capstone/keda-inference-scaler/internal/metrics/cache.go:73-106 | every Get is served by a flight in the air at an instant of the call, or by one stored at most that flight's TTL before the lookup |
| FlightTheorems.StalenessWithinOwnTtl | phase-2-capstone/keda-inference-scaler/internal/metrics/cache.go:73-106 | with one TTL per key the bound is the reader's own TTL |
| FlightTheorems.AgeNeverResets | phase-2-capstone/keda-inference-scaler/internal/metrics/cache.go:62-66 | two hits on one entry have, at their lookups, ages that differ by the time between them, each between the age at store and that plus the storing TTL |
| FlightTheorems.CacheHoldsOnlyGoodAnswers | phase-2-capstone/keda-inference-scaler/internal/metrics/cache.go:68-72 | every cache entry of every reachable state is a success or ErrMissing that a flight of that key wrote under a positive TTL |
| FlightTheorems.SettleByOutcome | phase-2-capstone/keda-inference-scaler/internal/metrics/cache.go:84-86 | with a positive TTL the store keeps a value and ErrMissing under the flight's key until now + TTL, and leaves the map alone for a cancellation and any other failure; without one it always does |
| FlightTheorems.FailedFlightNeverServes | phase-2-capstone/keda-inference-scaler/internal/metrics/cache.go:68-89 | a flight that ended in a cancellation or any other failure is behind no entry and no hit |
| FlightTheorems.OnlyGoodStoresChangeTheMap | phase-2-capstone/keda-inference-scaler/internal/metrics/cache.go:84-86 | the one step that changes the map is the store of a cacheable answer under a positive TTL, and it changes only its own key |
| FlightTheorems.CancellationIsTheLeaders | phase-2-capstone/keda-inference-scaler/internal/metrics/cache.go:82-89 | a caller that sees a cancellation shared a flight whose leader's context was cancelled |
| FlightTheorems.FollowerInheritsCancellation | phase-2-capstone/keda-inference-scaler/internal/metrics/cache.go:82-89 | a run in which a follower whose own context is live is handed that cancellation |
| FlightTheorems.NoLookupInWindowLeadsUpstream | phase-2-capstone/keda-inference-scaler/internal/metrics/cache.go:73-106 | under any interleaving with one TTL per key no flight grows out of a lookup made after a store of the key and within the TTL |
| FlightTheorems.StartInWindowLookedBefore | phase-2-capstone/keda-inference-scaler/internal/metrics/cache.go:73-106 | a flight of the key that starts inside the window was looked up for no later than the store |
| FlightTheorems.FlightsInWindowAreBounded | phase-2-capstone/keda-inference-scaler/internal/metrics/cache.go:73-106 | under any interleaving with one TTL per key, the flights of a key that start within the TTL of a store are at most as many as the other calls of the key under way at the store |
| FlightTheorems.OverlappingMissesFetchAgain | phase-2-capstone/keda-inference-scaler/internal/metrics/cache.go:76-82 | the bound is reached: for every n and every positive TTL some run has exactly n other calls under way at a store and n flights started within the TTL of it |
| Progress.StuckOnlyWhenDone | phase-2-capstone/keda-inference-scaler/internal/metrics/cache.go:73-90 | in every reachable state no caller can move iff every Get has returned |
| Progress.EveryMoveLowersTheRank | phase-2-capstone/keda-inference-scaler/internal/metrics/cache.go:73-90 | every caller step lowers a rank |
| Progress.MovesAreBounded | phase-2-capstone/keda-inference-scaler/internal/metrics/cache.go:73-90 | whatever the schedule, at most six moves per caller remain |
| Progress.EveryoneReturns | phase-2-capstone/keda-inference-scaler/internal/metrics/cache.go:73-90 | from every reachable state all callers do return |
| Sequential.Replay | phase-2-capstone/keda-inference-scaler/internal/metrics/cache.go:73-106 | CachingSource called once per operation of a history returns the history's reads and ends with its map |
| Sequential.CacheIsLastWrite | phase-2-capstone/keda-inference-scaler/internal/metrics/cache.go:92-106 | the map is, key by key, the last write of the history with its store time and TTL |
| Sequential.ReadIsADirectRead | phase-2-capstone/keda-inference-scaler/internal/metrics/cache.go:73-106 | each read equals the backend's direct answer to a call of the same key, made by that call or stored at most its TTL before |
| Sequential.CachedReadRefinesDirect | phase-2-capstone/keda-inference-scaler/internal/metrics/cache.go:73-106 | with one TTL, a cached read at t is the direct answer at some instant of the last TTL plus answer-to-store delay |
| Sequential.SteadyReadIsDirect | phase-2-capstone/keda-inference-scaler/internal/metrics/cache.go:73-106 | if the series stood still over that window the cached read is the direct one |
| Sequential.UpstreamCallsAreSpaced | phase-2-capstone/keda-inference-scaler/internal/metrics/cache.go:73-106 | after a write, the next upstream call of the key looks strictly more than the TTL later |
| Sequential.UpstreamRateBound | phase-2-capstone/keda-inference-scaler/internal/metrics/cache.go:16-17 | n cacheable upstream calls of a key span at least (n - 1)(TTL + 1) ns of store time |
| Sequential.FailureIsRetried | phase-2-capstone/keda-inference-scaler/internal/metrics/cache.go:68-72 | after a caching call that got a cancellation or any other failure, the next call of that key goes upstream |
| SequentialRuns.SequentialHistoryIsARun | phase-2-capstone/keda-inference-scaler/internal/metrics/cache.go:73-106 | every such history is reproduced by a run of the concurrent system with the same map and answers |
| Observability.Health.constructor | phase-2-capstone/keda-inference-scaler/internal/observability/health.go:36-38 | no success recorded yet |
| Observability.Health.RecordSuccess | phase-2-capstone/keda-inference-scaler/internal/observability/health.go:41-49 | stamps the last success; a nil Health is left alone |
| Observability.Health.Ready | phase-2-capstone/keda-inference-scaler/internal/observability/health.go:53-63 | the window since the last success, or since start before any; always true on nil |
| Readiness.RecordByOutcome | phase-2-capstone/keda-inference-scaler/main.go:84-92 | a success is recorded, at the instant it is, for a value and for ErrMissing; a cancellation and any other failure record nothing |
| Readiness.ReadyIsOneComparison | phase-2-capstone/keda-inference-scaler/internal/observability/health.go:53-63 | in every run Ready at t is t - max(start, last success) < window |
| Readiness.ReadyMeansARecentAnswer | phase-2-capstone/keda-inference-scaler/main.go:80-94 | after any recorded success, Ready at t implies a real answer (value or ErrMissing) that was complete less than window + storing TTL + serving-to-record delay before t, and that the backend gave its answer-to-completion delay earlier |
| Readiness.ReadyOutlivesAnswersIff | phase-2-capstone/keda-inference-scaler/internal/observability/health.go:53-63 | in any run, from the last recorded success on Ready holds at some time a window or more after every answer (value or ErrMissing; failed replies do not count) iff the window is positive and every such answer came before that record |
| Readiness.StaleReadyIff | phase-2-capstone/keda-inference-scaler/internal/observability/health.go:53-56 | with no delay from answer to store or from serving to record, Ready can hold although every answer (value or ErrMissing) is past the window by a given excess iff the window is positive and the excess is below the TTL |
| Readiness.DelayedStaleReadyIff | phase-2-capstone/keda-inference-scaler/main.go:80-94 | with delays allowed, any excess over every answer (value or ErrMissing) is possible iff the window is positive, whatever the TTL |
| Saturation.ScoreExceedsIff | phase-2-capstone/keda-inference-scaler/internal/saturation/saturation.go:12-24 | the score exceeds any level in percent iff some dimension exceeds that share of its threshold, a dimension without a positive threshold counting as 0 |
| Saturation.ScaleOutIff | phase-2-capstone/keda-inference-scaler/internal/saturation/saturation.go:12-24 | the score exceeds 100 iff some dimension with a positive threshold exceeds it |
| Saturation.ScoreMonotone | phase-2-capstone/keda-inference-scaler/internal/saturation/saturation.go:15-24 | the score is monotone in both readings |
| Saturation.RoundedMetricIsFaithful | phase-2-capstone/keda-inference-scaler/main.go:287-292 | the rounded metric is within 1/2 of the score, halves going away from zero, and above 100 iff the score is at least 100.5 |
| ForkJoin.ScheduleDoesNotMatter | phase-2-capstone/keda-inference-scaler/main.go:130-167 | for every schedule the call errs iff some dimension's own outcome is not tolerated, with that dimension's own error; otherwise the score depends on the two answers alone, with missing read as 0 at age 0 |
| ForkJoin.DecisionOfAnswers | phase-2-capstone/keda-inference-scaler/main.go:130-167 | for every schedule the call succeeds iff each answer is a value, or absent where that is tolerated, with the score of the two sample values (absent as 0) and the ages of the two samples (absent as 0) |
| ForkJoin.FirstErrorCancelsTheOther | phase-2-capstone/keda-inference-scaler/main.go:116-121 | once an error is kept, and not before, the group can cancel its context and the other query can end on that |
| ForkJoin.RunInv | phase-2-capstone/keda-inference-scaler/main.go:130-161 | the first error kept is a query's own, and the group is cancelled only after it was kept |
| ForkJoin.JoinIsReached | phase-2-capstone/keda-inference-scaler/main.go:159 | until both goroutines are gone one can move, and no step adds work |
| ForkJoin.EndpointsAgree | phase-2-capstone/keda-inference-scaler/main.go:184 | on equal answers IsActive is (GetMetrics float > activation), whatever the two schedules |
| CachedDecision.HonestRunIsFromBackend | phase-2-capstone/keda-inference-scaler/internal/metrics/cache.go:83-89 | in every run whose upstream replies are the backend's, every flight that was not cancelled holds the backend's answer to its query at the instant it answered |
| CachedDecision.ReadIsDirect | phase-2-capstone/keda-inference-scaler/internal/metrics/cache.go:73-106 | under every interleaving, with one TTL per key, a finished Get returned what the bare source says to its own question at some instant from its TTL + delay before its lookup (or joining) to its return |
| CachedDecision.CachedDecisionIsDirect | phase-2-capstone/keda-inference-scaler/main.go:116-167 | a decision whose two reads overlapped each other and any others is the one the bare source gives at two such instants, whatever the schedules |
| CachedDecision.SteadyDecisionIsDirect | phase-2-capstone/keda-inference-scaler/main.go:116-167 | if both series stood still over that time, it is the decision of the bare source at the returns |
| Decisions.RunInv | phase-2-capstone/keda-inference-scaler/main.go:130-167 | in every run of any number of decisions, each is a goroutine-group run on the answers its own two calls returned; a group's context is cancelled only if its request was abandoned, it kept an error or both its goroutines are gone; and a flight ends in a cancellation only for one of the first two reasons |
| DecisionTheorems.WhatEndsAContext | phase-2-capstone/keda-inference-scaler/main.go:131-161 | a group's context ends by a kept error, by both its goroutines being gone or by its request being abandoned, and by nothing else |
| DecisionTheorems.CallsOfDecision | phase-2-capstone/keda-inference-scaler/main.go:131-147 | in every run the two calls of a decision carry its address, its queue or KV query, its TTL and its own group's context |
| DecisionTheorems.HonestRunIsFromBackend | phase-2-capstone/keda-inference-scaler/internal/metrics/cache.go:83-89 | the same for runs of whole decisions |
| DecisionTheorems.DecisionIsDirect | phase-2-capstone/keda-inference-scaler/main.go:130-167 | in every run, a decision that succeeds has the score the bare source gives for its configuration at two instants of the last TTL + delay |
| DecisionTheorems.FailureIsDirect | phase-2-capstone/keda-inference-scaler/main.go:130-161 | in every run, a decision that fails, other than by a returned cancellation, fails with the error the bare source gives for that query at such an instant, and that error is not tolerated |
| DecisionTheorems.ReportedAge | phase-2-capstone/keda-inference-scaler/main.go:144-156 | the age a decision reports for a dimension served from the cache is the age at the store plus all the time to its own measurement, at most the storing TTL plus lookup-to-measurement more; a tolerated missing series reports 0 |
| DecisionTheorems.ReportedAgesNeverReset | phase-2-capstone/keda-inference-scaler/main.go:96-110 | the ages two decisions report from one entry differ by exactly the time between their measurements |
| DecisionTheorems.CanceledVerdictIsAnothers | phase-2-capstone/keda-inference-scaler/main.go:130-161 | a decision with a live request fails with a cancellation only because its query followed a flight led by another decision with the same cache key, whose context was cancelled because it was abandoned or had failed |
| DecisionTheorems.CancellationHasARoot | phase-2-capstone/keda-inference-scaler/main.go:130-161 | whenever a decision fails with a cancellation, a chain of decisions with queries in common leads to it from one that was abandoned or failed on an answer that was no cancellation |
| SharedCancellation.SpreadsIffLinked | phase-2-capstone/keda-inference-scaler/main.go:116-161 | among any number of decisions, one that is the only one to fail by itself, or to be abandoned, can take down a given other one iff a chain of decisions with cache keys in common links the two |
| SharedCancellation.TakenDownIffQueryShared | phase-2-capstone/keda-inference-scaler/main.go:116-122 | the direct case: of two decisions and no others, one can take down the other iff some query of one has the cache key of some query of the other |
| Config.Parse | phase-2-capstone/keda-inference-scaler/internal/config/config.go:72-101 | succeeds iff an address is given; the poll interval comes out positive, the failure limit at least 1, the queries non-empty |
| Config.OnlyAddressGivesDefaults | phase-2-capstone/keda-inference-scaler/internal/config/config.go:13-35 | with only an address every setting is its default: the two queries, 3, 0.7, 1, false, 15 s, 10 s and 5 |
| Config.OverridesUsedIff | phase-2-capstone/keda-inference-scaler/internal/config/config.go:81-99 | every other setting is what its own key says or parses to, and its default otherwise |
| Config.EachKeySetsItsOwnSetting | phase-2-capstone/keda-inference-scaler/internal/config/config.go:87-99 | a key changes the setting it names and no other; a value that is empty, does not parse or, for the stream loop, is not positive resets it to the default; unknown keys change nothing |
| Config.ParseIsAssignmentInOrder | phase-2-capstone/keda-inference-scaler/internal/config/config.go:72-101 | parsing any metadata is assigning its pairs one by one, later ones winning, to the defaults; it fails iff no address results |
| Config.StreamOverridesUsedIff | phase-2-capstone/keda-inference-scaler/internal/config/config.go:139-157 | an override of the interval or the limit is used iff it parses to a positive value |
| Stream.StreamIsActive | phase-2-capstone/keda-inference-scaler/main.go:216-257 | runs to the first event that ends it and says which kind; gives up exactly when the failure streak first reaches the limit; offers the successful polls in order; sets the timer before event j to the backoff of the streak so far |
| Stream.MessagesAreTheResults | phase-2-capstone/keda-inference-scaler/main.go:248-253 | the messages are the results of the successful polls themselves, one each and in their order |
| Stream.CountsAreSizes | phase-2-capstone/keda-inference-scaler/main.go:234-250 | the counters are the numbers of successful and of failed polls |
| Stream.StreakIsTheTail | phase-2-capstone/keda-inference-scaler/main.go:230-250 | the failure count is the longest run of failed polls the events end with |
| Stream.BackoffIsCappedDoubling | phase-2-capstone/keda-inference-scaler/main.go:190-204 | below 2^59 ns the k-th backoff is interval * min(2^k, 8), within [interval, 8 * interval] |
| Stream.WaitsAsDocumentedIff | phase-2-capstone/keda-inference-scaler/main.go:190-204 | exactly which intervals and limits give the documented waits in int64 arithmetic |
| Stream.FourthBackoffWraps | phase-2-capstone/keda-inference-scaler/main.go:197-204 | from 2^59 up to 2^60 ns the fourth backoff is negative |
| Stream.ParsedIntervalCanWrap | phase-2-capstone/keda-inference-scaler/internal/config/config.go:139-144 | an accepted configuration with an interval of 2^59 ns and the default limit reaches that negative wait |
| Stream.ParsedConfigDrivesTheLoop | phase-2-capstone/keda-inference-scaler/main.go:218-227 | every parsed configuration meets the loop's preconditions, and an interval below 2^59 ns backs off as documented |
| Stream.StreakWaitTime | phase-2-capstone/keda-inference-scaler/main.go:235-246 | n failures since a success or the start wait interval * (2^n - 1) for n <= 4 and interval * (15 + 8(n - 4)) beyond |
| Slots.RunInv | phase-2-capstone/local/mock-vllm/app.py:63-94 | at every interleaving waiting counts the tasks counted in and not recorded, running those recorded and not counted out, the semaphore is the capacity minus granted and held slots and not negative, at most one task holds the lock, and the gauges show the counters as they were before its holder changed them |
| Slots.GaugesCurrentIff | phase-2-capstone/local/mock-vllm/app.py:68-94 | the gauges show the counters iff nobody holds the lock, are off by at most one, and KV usage is in [0, 1] and 1 iff the running gauge has reached capacity |
| Slots.KvIsTheShare | phase-2-capstone/local/mock-vllm/app.py:73 | KV usage times capacity is the running gauge, at most the capacity |
| Slots.RunningWithinCapacityIff | phase-2-capstone/local/mock-vllm/app.py:90-94 | running minus capacity is released minus granted minus free; within capacity iff released <= granted + free |
| Slots.RunningCanOvershoot | phase-2-capstone/local/mock-vllm/app.py:90-94 | if tasks switch between release and decrement, they can push running any distance past capacity |
| Slots.StretchKeepsQuiet | phase-2-capstone/local/mock-vllm/app.py:79-94 | run without needless switches, each stretch is one atomic update of counters, slots and gauges |
| Slots.WholeStretchesNeverOvershoot | phase-2-capstone/local/mock-vllm/app.py:79-94 | in schedules of whole stretches running never exceeds capacity and the gauges show the counters |
| Slots.SomeoneCanMove | phase-2-capstone/local/mock-vllm/app.py:79-94 | with at least one slot there is no deadlock |
| Slots.EveryoneFinishes | phase-2-capstone/local/mock-vllm/app.py:79-94 | from every reachable state all tasks can finish, in at most eight moves each |
| Slots.CountersReturnToZero | phase-2-capstone/local/mock-vllm/app.py:79-94 | once all are through, both counters are 0, every slot is free and the gauges say so |
| Slots.Engine.SyncGauges | phase-2-capstone/local/mock-vllm/app.py:68-73 | sets the three gauges from the counters and lets go of the lock |
| Slots.Engine.EnterQueue | phase-2-capstone/local/mock-vllm/app.py:80-81 | is the queueing step and keeps the accounting |
| Slots.Engine.TakeSlot | phase-2-capstone/local/mock-vllm/app.py:83 | is the grant step and keeps the accounting |
| Slots.Engine.RecordRunning | phase-2-capstone/local/mock-vllm/app.py:84-86 | is the waiting-to-running step and keeps the accounting |
| Slots.Engine.GiveSlotBack | phase-2-capstone/local/mock-vllm/app.py:91 | is the release step and keeps the accounting |
| Slots.Engine.RecordLeft | phase-2-capstone/local/mock-vllm/app.py:92-93 | is the leaving step and keeps the accounting |
| Slots.Engine.JoinQueue | phase-2-capstone/local/mock-vllm/app.py:80-82 | with the lock free, one more task waits and the gauges agree |
| Slots.Engine.BeginRunning | phase-2-capstone/local/mock-vllm/app.py:84-87 | with the lock free, one task moves from waiting to running and the gauges agree |
| Slots.Engine.CountOut | phase-2-capstone/local/mock-vllm/app.py:92-94 | with the lock free, a task that gave its slot back is counted out and the gauges agree |
| Slots.Engine.AEnter | phase-2-capstone/local/mock-vllm/app.py:79-88 | takes a task as far as it gets without waiting: nowhere if the lock is held, into the queue if no slot is free, otherwise to running with one slot fewer; the whole state is stated in each case |
| Slots.Engine.AExit | phase-2-capstone/local/mock-vllm/app.py:90-94 | gives the slot back, and counts the task out unless the lock is held |
| Slots.Engine.Serve | phase-2-capstone/local/mock-vllm/app.py:76-94 | entering and leaving with nobody in between changes nothing but the task's own place; a task that is not admitted is left where it waits |
| Sse.OutputIsExact | phase-2-capstone/local/mock-vllm/app.py:131-149 | at every interleaving the client has a prefix of the max(n, 0) chunks in order and one [DONE], and all of it iff the stream is closed |
| Sse.CountersAreExact | phase-2-capstone/local/mock-vllm/app.py:135-149 | the stop counter rises once and before the sentinel can be seen; at the end the token counter equals the number of chunks |
| Sse.EveryStepCounts | phase-2-capstone/local/mock-vllm/app.py:131-149 | every step lowers a rank by one |
| Sse.StuckIffClosed | phase-2-capstone/local/mock-vllm/app.py:131-149 | no step is possible iff the stream is closed |
| Sse.Pump.DecodeToken | phase-2-capstone/local/mock-vllm/app.py:124-128 | counts a token or reports the end of the loop |
| Sse.Pump.PutToken | phase-2-capstone/local/mock-vllm/app.py:129-136 | queues the counted token |
| Sse.Pump.CountRequest | phase-2-capstone/local/mock-vllm/app.py:137 | counts the finished request |
| Sse.Pump.PutEnd | phase-2-capstone/local/mock-vllm/app.py:138 | queues the sentinel |
| Sse.Pump.TakeItem | phase-2-capstone/local/mock-vllm/app.py:141-145 | moves one item from the queue to the client or ends the draining |
| Sse.Pump.EndStream | phase-2-capstone/local/mock-vllm/app.py:146-147 | ends the stream once the producer is gone |
| Sse.Pump.Produce | phase-2-capstone/local/mock-vllm/app.py:134-138 | one turn of the producer keeps the accounting and lowers the rank |
| Sse.Stream | phase-2-capstone/local/mock-vllm/app.py:131-149 | whichever side the event loop runs first at every turn, the response ends with exactly the expected stream, one stop and one count per token |
| Sse.Accumulate | phase-2-capstone/local/mock-vllm/app.py:152-161 | collects max(n, 0) tokens in order; the reported usage equals their number iff n is not negative |
| ExtractJson.Find | phase-1-foundations/benchmark.py:242-244 | the first occurrence of a character, or none |
| ExtractJson.Extract | phase-1-foundations/benchmark.py:240-256 | the parser gets the shortest balanced span from the first brace; None if there is no such span |
| ExtractJson.SpanIsUnique | phase-1-foundations/benchmark.py:242-256 | a text has at most one such span |
| ExtractJson.PrintedObjectIsRecovered | phase-1-foundations/benchmark.py:240-256 | any serialised JSON object (sections 2 to 7 of RFC 8259) without literal braces in its strings, after any brace-free-opening prefix and before any suffix, is sliced out exactly |
| ExtractJson.ArrayPrintsAsJson | phase-1-foundations/benchmark.py:240-256 | arrays are printed with the punctuation of section 5 of RFC 8259 |
| ExtractJson.ObjectPrintsAsJson | phase-1-foundations/benchmark.py:240-256 | objects are printed with the punctuation of section 4 of RFC 8259 |
| ExtractJson.PickedOutIff | phase-1-foundations/benchmark.py:245-252 | a text starting with a brace is sliced out of every such reply iff, counting all its braces, it first closes at its end |
| ExtractJson.BraceInStringCutsShort | phase-1-foundations/benchmark.py:245-252 | a well-formed object whose string holds a closing brace is cut short |
| ExtractJson.ObjectIsPickedIff | phase-1-foundations/benchmark.py:241-252 | a balanced object inside a text is what is sliced out iff no opening brace precedes it |
| ExtractJson.FirstObjectIsPickedIff | phase-1-foundations/benchmark.py:241-256 | the first balanced object of a text is sliced out iff, as soon as any brace of the text closes, the first one does |
| ExtractJson.UnclosedBraceHidesTheRest | phase-1-foundations/benchmark.py:241-256 | an unclosed brace hides every object after it: nothing is sliced out |
| Judge.LabelNumbersFromOne | phase-1-foundations/benchmark.py:267 | the labels are Response 1, Response 2 and so on |
| Judge.LabelsDistinct | phase-1-foundations/benchmark.py:267 | different places have different labels |
| Judge.Relabel | phase-1-foundations/benchmark.py:267 | the label map holds exactly the shown answers under their labels |
| Judge.JudgeItem | phase-1-foundations/benchmark.py:290-306 | returns what the labelled scores say about the models behind the labels |
| Judge.EveryVerdictIsItsModels | phase-1-foundations/benchmark.py:292-305 | every verdict is the last score given to that very model's answer under its label, raised to 1 or lowered to 5 if outside and otherwise itself, with its reason; no other model appears |
| Judge.EveryScoreArrives | phase-1-foundations/benchmark.py:292-305 | every usable score of a shown answer reaches its model, brought into 1..5 and otherwise unchanged |
| Judge.HonestVerdicts | phase-1-foundations/benchmark.py:259-306 | a judge that grades content alone yields exactly each model's own grade, clamped |
| Judge.ShuffleDoesNotMatter | phase-1-foundations/benchmark.py:265-267 | two shuffles of the same answers, judged so, give the same verdicts |

## Left out

- HTTP, URL building and JSON decoding in `metrics.Prometheus.Instant`: the backend is any source of a sample,
  ErrMissing or another error.
- gRPC plumbing, protobuf stubs, logging, Prometheus collectors, the probe server, `GetMetricSpec` and `main`: wiring.
- singleflight, errgroup, `sync` and asyncio internals, including panics and `runtime.Goexit`: their documented
  behaviour is part of the step rules.
- The monotonic and wall clock are one clock; `time.Time` arithmetic does not overflow.
- IEEE 754 rounding, NaN and infinities in the score, and the int64 conversion of scores outside int64.
- The string parsers behind `config`: they are arbitrary partial functions.
- The error text of a failed query and the gauges IsActive and GetMetrics set: only the error and its dimension are
  modelled.
- CAPACITY below 1: the first request of such a mock fails while computing the KV gauge, so the slot model starts at one.
- Cancellation of a task inside `acquire`, a client that disconnects mid-stream, error injection, the latency
  histograms and the sleeps of the mock.
- Which waiting task the semaphore serves next: any queued task may be granted a free slot.
- `Sse.Accumulate` leaves out the joined text: it is the same token repeated.
- `int(raw)` on a judge's score and `json.loads`: a score is usable with an integer or it is not.
- `pct`, `run_concurrency_level`, report writing and the leaderboard: sorting, division of work and output.
- Manifests, PromQL rules, dashboards, shell scripts and load generators: configuration and input/output.
- KEDA, the HPA and vLLM themselves are not part of this model.
