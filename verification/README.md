# A verified model of the gateway's state machines

This project models the stateful core of the LLM gateway and proves what its runs keep. The four
machines are the circuit breakers with the fallback executor, the two-dimensional token bucket with
later correction, the semantic cache, and the streaming transducers with their end-of-stream
accounting; routing policies and the smoothed latency close the control loop. All clocks, levels,
weights, latencies and similarities are real numbers.

Code that updates objects is modelled by classes and methods with the same fields, loops and early
exits, and every method is proved equal to a specification on values or to satisfy a relation
between values. The theorems are about all runs of those specifications. Every lemma switches automatic
induction off: its proof is the one written down.

- **Breakers, BreakerRuns, Executor, ExecutorRuns, LoadRuns.** A request that awaits gives way to others: what
  they do meanwhile is an arbitrary list of moves (time passing, admissions, reports, samples), so an
  outcome can arrive in any breaker state. `execute` and `execute_stream` are proved to follow one and
  the same walk over the target list. Any interleaving of any number of such walks is proved to be a
  run of the breaker transition system, on which half-open accounting, freedom from wedging, the
  window invariant and the dead-provider load bounds are proved; `LoadRuns` carries the load bounds back
  to requests, sequential or concurrent, whose target lists may repeat the provider.
- **Limiter, Ledger, RetryAfter.** The Lua script is one atomic step on two Redis hashes with an expiry;
  `reconcile` is a separate later step. The ledger keeps one entry per admitted request, reserved or
  settled. Overflow is what lies above the cap before the script runs, a gift is what an expiry adds beyond
  the refill; bucket level, charges and overflow always add up to capacity, refill and gifts, in every
  interleaving and with a clock that may step backward.
- **Cache, CacheRuns, CacheScopes, ScopeRuns.** The per-scope indexes, the entry map and the recency
  order are proved to simulate one list ordered by last touch. A lookup is specified as a relation, so
  that ties may be broken in any way; `CacheScopes` has the lookup with ties broken by age, shown to be
  one of the allowed lookups and, without ties, the only one.
- **Streaming, Framing.** A generator that its consumer may close at any yield is a method with a
  `patience`: how often the consumer comes back before it closes.
- **Accounting, Settlement, SettlementRuns.** The request handler calls the limiter, the cache, the
  executor and the stream. `Settlement` follows one request from its walk over the targets to its answer,
  its charge and its latency sample. What a request does to its tenant's keys is one check and at most one
  correction; any history made of such requests, interleaved in any way, is proved to be a legal run of the
  ledger, and the account at quiescence follows.
- **Prelude, Histories.** Options and real quotients; moves as one request and as the whole gateway sees them.
- **Signals, Policies, ControlLoop.** The executor writes latency samples, the average is their weighted
  sum, and routing reads it.

Where a tempting statement is false of the code, the project states the exact condition:

- A closed breaker may hold a failure rate at or above the threshold, because a success never checks
  the rate (`ClosedAboveThreshold`); it then has fewer failures than `min_calls`
  (`ClosedRateInvariant`).
- A breaker can be refused for ever exactly when it allows no half-open call and can open at all
  (`NeverWedgedIff`).
- `Retry-After` covers only the reported dimension (`BlockedOnTokens`, `HeaderCanMislead`).
- Expiry of the token key gives tokens away exactly when the debt is deeper than the missed refill
  (`GivesAwayIff`, `ForgivesOnlyDeepDebt`, `ForgivenExample`).
- A correction that finds its key expired creates a hash without a timestamp, and from then on every
  check of the tenant fails (`CheckFaultsIffLate`, `LateCorrectionExample`).
- A cache miss can be incomplete: a lookup misses an available answer exactly when five expired items
  rank ahead of it (`IncompleteIff`, and `IncompleteBetween` when similarities tie;
  `IncompleteMissExample`).
- The weighted policy's loop is certain to end exactly when no weight is negative (`SureToEndIff`).

The code and its documentation disagree in one place that is modelled. The repository's README and the
comment on `_refund_tokens` say that a request slot stays charged because an upstream attempt was made.
The code keeps the slot of every admitted request, also on a cache hit. A walk over the targets attempts
nothing exactly when its deadline is negative or no configured provider of its list would be admitted as it
starts (`SlotChargedWithoutAttempt`, `SlotExample`). The model follows the code.

## Model

| member | source | states |
|---|---|---|
| Breakers.CircuitBreaker.Allow | gateway/resilience/circuit_breaker.py:52-64 | a call is admitted when closed, when the cooling-off of an open breaker is over (which starts a half-open episode), or while the episode has calls left; the whole new state |
| Breakers.CircuitBreaker.RecordSuccess | gateway/resilience/circuit_breaker.py:66-70 | a half-open breaker closes with an empty window, else the outcome enters the bounded window; the rate is not looked at |
| Breakers.CircuitBreaker.RecordFailure | gateway/resilience/circuit_breaker.py:72-80 | a half-open breaker opens; else it opens exactly when the window has enough calls and the failure ratio reaches the threshold, for the real quotient the source computes |
| Breakers.BreakerRegistry.Get | gateway/resilience/circuit_breaker.py:109-112 | one breaker per provider, created fresh on first use, never replaced, never shared |
| BreakerRuns.HalfOpenAccounting | gateway/resilience/circuit_breaker.py:59-74 | in every reachable half-open state the counter equals the calls admitted in this episode and still out, and is within the limit |
| BreakerRuns.RefusalHasCause | gateway/resilience/circuit_breaker.py:52-94 | a refusal happens exactly while cooling off or with all half-open calls out, and then the report of any outstanding call ends the episode |
| BreakerRuns.IdleBreakerAdmits | gateway/resilience/circuit_breaker.py:52-64 | with nothing outstanding a breaker admits exactly when closed or its cooling-off is over |
| BreakerRuns.NeverWedgedIff | gateway/resilience/circuit_breaker.py:52-94 | no reachable breaker is refused for ever, if and only if it allows a half-open call or cannot open |
| BreakerRuns.WindowRefinesHistory | gateway/resilience/circuit_breaker.py:66-94 | over any run the window is the last `window_size` outcomes recorded since the last close |
| BreakerRuns.ClosedRateInvariant | gateway/resilience/circuit_breaker.py:66-80 | a reachable closed breaker at or above the threshold has fewer failures than `min_calls` |
| BreakerRuns.ClosedAboveThreshold | gateway/resilience/circuit_breaker.py:66-80 | such a breaker is reachable with the default settings |
| BreakerRuns.AdmissionAfterReport | gateway/resilience/circuit_breaker.py:66-94 | when calls are admitted again after any report in any run: after a half-open success at once, after a half-open failure or one that makes the recorded outcomes excessive exactly a reset timeout later, whether the breaker was closed or already open, and otherwise as before |
| BreakerRuns.TripStreakTrips | gateway/resilience/circuit_breaker.py:72-80 | max(1, `min_calls`, ⌈`failure_threshold` · `window_size`⌉) failures in a row trip the breaker whatever else the window holds |
| BreakerRuns.LoadAfterOpening | gateway/resilience/circuit_breaker.py:52-89 | once open, a provider whose calls all fail is called at most `half_open_max` times per elapsed reset timeout, in any interleaving |
| BreakerRuns.DeadProviderLoadBound | gateway/resilience/circuit_breaker.py:52-94 | from any reachable closed state, with at most C calls in flight: at most that many calls minus one plus C, and `half_open_max` more per whole reset timeout elapsed |
| BreakerRuns.OpenBreakerLoadBound | gateway/resilience/circuit_breaker.py:52-89 | the same bound, without in-flight term, from any reachable open state |
| BreakerRuns.HalfOpenLoadBound | gateway/resilience/circuit_breaker.py:52-89 | the same from any reachable half-open state, where the calls already taken count towards the first episode |
| Executor.ResilientExecutor.Execute | gateway/resilience/retry.py:79-151 | the loop with its awaits ends in the world and with the result or exception of the walk over the targets |
| Executor.ResilientExecutor.ExecuteStream | gateway/resilience/retry.py:153-241 | the same walk up to the first byte; an empty stream counts as served |
| Executor.ResilientExecutor.VisitCall | gateway/resilience/retry.py:89-149 | one turn of the loop of `execute` is one visit of the walk |
| Executor.ResilientExecutor.VisitStream | gateway/resilience/retry.py:167-239 | one turn of the loop of `execute_stream` is one visit of the same walk |
| Executor.ResilientExecutor.Settle | gateway/resilience/retry.py:109-149 | an outcome is recorded once on the admitting breaker, and a served call's latency once |
| Executor.VerdictIsFinal | gateway/resilience/retry.py:109-151 | nothing is tried after a success or a non-retryable error |
| ExecutorRuns.FirstUsableIsServed | gateway/resilience/retry.py:89-151 | the walk serves the first target that is on time, configured, admitted at its turn and does not fail retryably; it surfaces or gives up exactly in the other cases |
| ExecutorRuns.NoAttemptIff | gateway/resilience/retry.py:89-121 | a request of any list makes no attempt exactly when it starts past its deadline or every configured provider of the list is refused in the world it starts in; a refusal changes no later answer |
| ExecutorRuns.AttemptsIncrease | gateway/resilience/retry.py:89-121 | attempts are at strictly increasing list positions |
| ExecutorRuns.AttemptedExactlyWhenTryable | gateway/resilience/retry.py:89-121 | a position is attempted exactly when its turn came, in time, and it was configured and admitted then |
| ExecutorRuns.WholeCallBound | gateway/resilience/retry.py:68-121 | every attempt starts within deadline plus maximal backoff of the start, the call ends one attempt later, and the backoffs of the first n attempts are within the sum of their ceilings |
| ExecutorRuns.ElapsedTimeBound | gateway/resilience/retry.py:85-121 | the same for every attempt while the walk goes on |
| ExecutorRuns.DelaysOfPrefix | gateway/resilience/retry.py:68-71 | total backoff before attempt n is at most the sum of the doubling, capped ceilings |
| ExecutorRuns.JitterIsFull | gateway/resilience/retry.py:68-71 | the delay before an attempt can be exactly the values from 0 to the base doubled per earlier attempt, capped |
| ExecutorRuns.WaitsForItsAttempts | gateway/resilience/retry.py:68-121 | each attempt is delayed by what is drawn for its number, none before the first; a request gives way to others for its backoffs that are not zero and for its calls, in order, and at no other moment |
| ExecutorRuns.AskedInTurn | gateway/resilience/retry.py:89-108 | every configured target whose turn comes in time is asked for admission once, first thing in its turn, also when it is refused; other turns do nothing |
| ExecutorRuns.WalkObeys | gateway/resilience/retry.py:96-149 | each admitted call is reported exactly once, to the breaker that admitted it, before the request asks again or ends |
| ExecutorRuns.ReportsFollowAnswers | gateway/resilience/retry.py:109-149 | over a whole walk each attempt makes one report, in order, to its target's breaker; it is a failure exactly if the upstream timed out, could not be reached, or answered 429 or at least 500 |
| ExecutorRuns.LastCause | gateway/resilience/retry.py:89-149 | the last error is that of the last target passed over: not configured, circuit open, or what its upstream answered |
| ExecutorRuns.OnlyServedIsSampled | gateway/resilience/retry.py:73-77 | a request writes one latency sample if it is served and none otherwise |
| ExecutorRuns.SamplesAddUp | gateway/resilience/retry.py:73-77 | the samples of any run are those written, in order, after those before it |
| ExecutorRuns.InterleavingsAreBreakerRuns | gateway/resilience/retry.py:96-149 | any interleaving of such requests is, per provider, a legal run of the breaker system |
| ExecutorRuns.LoopsReachBreakerStates | gateway/resilience/retry.py:79-241 | however many loops interleave, every breaker is in a reachable state whose outstanding calls are the requests that hold it |
| LoadRuns.DeadProviderLoadOfRequests | gateway/resilience/retry.py:79-241 | in any history of fallback loops of which at most C are in progress at a time, a provider that answers every call with a failure from a moment on at which its breaker is closed is by any later moment called at most trip streak − 1 + C times, and `half_open_max` more per whole reset timeout elapsed |
| LoadRuns.OpenBreakerLoadOfRequests | gateway/resilience/retry.py:79-241 | from a moment at which its breaker is open: by any later moment `half_open_max` calls per whole reset timeout, however many requests there are |
| LoadRuns.HalfOpenLoadOfRequests | gateway/resilience/retry.py:79-241 | from a moment at which it is half open: one more episode, less the calls it has taken |
| LoadRuns.SequentialLoad | gateway/resilience/retry.py:79-241 | requests one after another are C = 1, also when their lists repeat the provider |
| Limiter.Redis.Evaluate | gateway/ratelimit/limiter.py:20-64 | the script as one atomic step: both buckets refilled, both charged or neither, both written, the answer; or a fault that writes nothing |
| Limiter.RateLimiter.Check | gateway/ratelimit/limiter.py:81-101 | one tenant's buckets change as the script says, every other tenant's not at all |
| Limiter.RateLimiter.Reconcile | gateway/ratelimit/limiter.py:103-115 | the token bucket moves by estimate minus actual, nothing else does; a zero correction touches nothing |
| Limiter.KeysApart | gateway/ratelimit/limiter.py:85-115 | tenants share no key, nor do the two buckets of one |
| Limiter.ScriptRenews | gateway/ratelimit/limiter.py:45-50 | an answer renews both keys' time to live, or leaves it as it was if none is given |
| Ledger.LimitsAreSound | gateway/ratelimit/limiter.py:83-95 | the arguments passed are the tenant's limits, and keys live twice the time an empty bucket takes to fill |
| Ledger.Conservation | gateway/ratelimit/limiter.py:26-50 | in every run, level + charges (reserved estimates and settled actuals) + overflow = capacity + refill + gifts, with overflow and gifts defined from the levels before the script runs |
| Ledger.TokenLedger | gateway/ratelimit/limiter.py:26-50 | in every run, level + charges never exceed capacity + rate × the clock's forward movement + gifts |
| Ledger.RefillIsRate | gateway/ratelimit/limiter.py:26-33 | the refill is the rate times the clock's forward movement, backward steps not counted |
| Ledger.LevelAccounts | gateway/ratelimit/limiter.py:26-33 | the level the script decides on is the refilled one, less what lies above the capacity, plus what an expired key adds |
| Ledger.GivesAwayIff | gateway/ratelimit/limiter.py:26-50 | a step leaves more in stock and charges than the refill accounts for exactly at an expiry of a key whose level, refilled, is below the capacity |
| Ledger.ForgivesOnlyDeepDebt | gateway/ratelimit/limiter.py:47-50 | an expiry forgives only debt deeper than one capacity, and exactly that at the moment of expiry |
| Ledger.ForgivenExample | gateway/ratelimit/limiter.py:47-50 | a legal run in which an expiry gives 80 tokens away |
| Ledger.NoGiftsIff | gateway/ratelimit/limiter.py:26-50 | expiries give nothing away over a run exactly when none forgives debt |
| Ledger.UsageBound | gateway/ratelimit/limiter.py:26-50 | in every run charges exceed capacity plus refill plus gifts by at most the summed under-estimates |
| Ledger.AdmissionFits | gateway/ratelimit/limiter.py:38-43 | at every admission, all charges together fit capacity plus refill plus gifts |
| Ledger.LevelIsCapacityMinusCharges | gateway/ratelimit/limiter.py:26-50 | at a frozen clock the level is exactly the capacity minus the charges |
| Ledger.WindowBound | gateway/ratelimit/limiter.py:26-50 | under a monotone clock an interval admits at most capacity plus its refill, across expiries |
| Ledger.TwiceTheLimitPerWindow | gateway/ratelimit/limiter.py:83-95 | at most twice the per-window limit in any window |
| RetryAfter.RefusalIsWritten | gateway/ratelimit/limiter.py:35-63 | a refused check stores the uncharged refilled levels it decided on |
| RetryAfter.BlockedOnRequests | gateway/ratelimit/limiter.py:52-61 | refused for requests: the same check is admitted exactly from the answered time on |
| RetryAfter.BlockedOnTokens | gateway/ratelimit/limiter.py:52-61 | refused for tokens: admitted exactly when the estimate fits the capacity, the answered time or the key's life is over, and the request bucket has a slot by then |
| RetryAfter.NeverEarlyUnlessDeepDebt | gateway/ratelimit/limiter.py:52-61 | no refused check is admitted before the answered time, unless debt and cost exceed two capacities and the key expires first |
| RetryAfter.HeaderIsLeast | gateway/main.py:255 | the header is the least positive whole number that is no less than the wait |
| RetryAfter.HeaderSuffices | gateway/main.py:247-256 | the rounded-up header is late enough when requests were short, and by less than a second too late |
| RetryAfter.HeaderCanMislead | gateway/main.py:247-256 | a run of two checks after which a token-blocked client that obeys the header is refused again |
| RetryAfter.CheckFaultsIffLate | gateway/ratelimit/limiter.py:103-115 | the script fails, and for ever, exactly when a correction has landed on a missing key |
| RetryAfter.LateCorrectionExample | gateway/ratelimit/limiter.py:103-115 | such a correction: a stream outlives the key of a 60-second window |
| Cache.Search | gateway/cache/semantic_cache.py:93-94 | the k most similar vectors in descending order, ties in any order, all of them when k is the size |
| Cache.SimilarityIsInnerProduct | gateway/cache/semantic_cache.py:112-125 | the similarity is the sum of the products of corresponding components |
| Cache.SearchRanks | gateway/cache/semantic_cache.py:90-94 | searching a scope's index ranks the scope's items of the whole list |
| Cache.SemanticCache.Get | gateway/cache/semantic_cache.py:89-110 | a lookup drops expired items off the top of the ranking, then serves the item in front as the most recent, or misses, and changes nothing else |
| Cache.SemanticCache.Set | gateway/cache/semantic_cache.py:112-126 | a store appends one item with a new id and keeps the most recent `max_entries` |
| Cache.SemanticCache.EvictIfNeeded | gateway/cache/semantic_cache.py:128-132 | the loop ends, never pops an empty order, and leaves the most recent items |
| Cache.SemanticCache.Remove | gateway/cache/semantic_cache.py:134-137 | one item disappears from all three structures |
| Cache.SemanticCache.RemoveFromIndex | gateway/cache/semantic_cache.py:139-145 | one vector leaves the index of its entry's scope, if there is one |
| Cache.RemovedEverywhere | gateway/cache/semantic_cache.py:134-145 | removal keeps ids of entries, recency order and the union of the indexes equal |
| Cache.AddedEverywhere | gateway/cache/semantic_cache.py:115-125 | so does insertion, and each id is in the index of its own entry's scope |
| Cache.IndexMirrorsList | gateway/cache/semantic_cache.py:77-81 | a scope's index holds exactly the vectors of the scope's items |
| CacheRuns.HitIsBestLive | gateway/cache/semantic_cache.py:96-107 | a hit is live, of the scope and above the threshold, and everything more similar in the scope has expired |
| CacheRuns.ServedForItsTime | gateway/cache/semantic_cache.py:100-126 | a stored answer is served to a query above the threshold exactly until its time to live is over, and for ever with none or zero |
| CacheRuns.AgreesWithBruteForce | gateway/cache/semantic_cache.py:89-110 | a lookup with probes left over hits exactly when a search of the whole list would |
| CacheRuns.IncompleteIff | gateway/cache/semantic_cache.py:93-110 | without a tie with an expired item, the best live match is missed exactly when five expired items rank ahead of it |
| CacheRuns.IncompleteBetween | gateway/cache/semantic_cache.py:93-110 | with ties: five strictly more similar expired items force such a miss, and such a miss has five that are at least as similar |
| CacheRuns.IncompleteMissExample | gateway/cache/semantic_cache.py:93-110 | such a miss ends a run of six stores and a lookup from the empty cache |
| CacheRuns.IncompleteMissesBound | gateway/cache/semantic_cache.py:93-110 | at a frozen clock a scope has at most a fifth as many incomplete misses as expired items, whatever happens in between |
| CacheRuns.PerformAll | gateway/cache/semantic_cache.py:89-126 | any sequence of calls of the cache is a legal run of the list |
| CacheRuns.AlwaysSound | gateway/cache/semantic_cache.py:112-132 | in every run ids are distinct and below the counter and the size is within the cap |
| CacheRuns.AlwaysInTouchOrder | gateway/cache/semantic_cache.py:105-125 | in every run the list is ordered by last touch, stored or served |
| CacheRuns.LeastRecentlyTouchedGo | gateway/cache/semantic_cache.py:128-132 | whoever is evicted was touched before everyone who stays, across all scopes, and no more are evicted than needed |
| CacheScopes.ProbeIsLooked | gateway/cache/semantic_cache.py:89-110 | the lookup with ties broken by age is one of the allowed lookups |
| CacheScopes.LookedIsProbe | gateway/cache/semantic_cache.py:89-110 | without ties it is the only one |
| ScopeRuns.NextIsCacheStep | gateway/cache/semantic_cache.py:89-126 | the compared runs consist of steps the cache may take |
| ScopeRuns.OthersUntouched | gateway/cache/semantic_cache.py:89-110 | a lookup leaves the items of other scopes alone |
| ScopeRuns.ScopesDoNotInterfere | gateway/cache/semantic_cache.py:89-126 | without eviction, every operation on a scope returns what it returns in the run of that scope alone, up to a renaming of ids |
| Streaming.StreamSse | gateway/streaming/sse.py:23-46 | for every client: a prefix of the frames, the upstream closed, then one end-of-stream action, with usage only if the client came back after the terminator |
| Streaming.StreamGemini | gateway/providers/gemini.py:16-24 | for every consumer: a prefix of the chunks with usage on the last one only |
| Streaming.LookaheadKeepsContent | gateway/providers/gemini.py:16-24 | contents and order are kept; after an error following m chunks all but the last have been passed on |
| Streaming.UsageOfLastChunk | gateway/providers/gemini.py:16-24 | the usage that comes through is the last chunk's |
| Streaming.LastReportWins | gateway/streaming/sse.py:28-37 | of a stream without lookahead the usage of the last chunk that reports one is kept |
| Streaming.PipelineUnderAbort | gateway/streaming/sse.py:28-46 | lookahead, peek and re-emission together: the stream opens unless the provider fails before its second chunk; then frames, the one action and its usage, for every moment of closing |
| Framing.ReadLines | gateway/providers/openai_compat.py:85-90 | the line loop collects the objects up to the terminator |
| Framing.RoundTrip | gateway/streaming/sse.py:19-37 | reading what was written gives the chunks back and stops at the terminator whatever follows (framing of section 9.2 of the WHATWG HTML standard) |
| Framing.GoodCodecExists | gateway/streaming/sse.py:19-37 | there is a codec for chunks that is as the framing needs it |
| Framing.ClientReadsPrefix | gateway/providers/openai_compat.py:19-31 | a client that closes at any point has read a prefix of the chunks |
| Framing.NoiseIsSkipped | gateway/providers/openai_compat.py:19-31 | a line without the prefix, with a blank payload, or whose payload is neither the terminator nor a JSON object can be taken out anywhere |
| Framing.ChunkIsRead | gateway/providers/openai_compat.py:19-31 | a payload that is a JSON object is yielded in its place, whatever white space surrounds it, unless a terminator precedes it |
| Framing.ReadingStops | gateway/providers/openai_compat.py:85-90 | reading stops at the first line whose payload is `[DONE]`, whatever follows |
| Framing.EveryLine | gateway/providers/openai_compat.py:19-31 | there are no other lines |
| Accounting.Gateway.ChatCompletions | gateway/main.py:209-333 | the response of every path; turned away, nothing but the refusal is written and executor and cache are untouched; admitted, the walk over the targets takes the executor's state, breakers and samples, from before to after and decides the answer; the tenant's keys are charged once, moved by others and corrected at most once, which is the replay of the request's log; the lookup, its answer and the item stored |
| Accounting.Gateway.Serve | gateway/main.py:258-333 | the same for an admitted request, streamed or not: the cached answer is that of a lookup the cache allows, and what the upstream answers after a miss is stored with its scope, vector, body and expiry |
| Accounting.Gateway.StreamingCompletion | gateway/main.py:135-206 | the same for a stream, whose correction is that of its end-of-stream action |
| Accounting.Gateway.OnFinish | gateway/main.py:174-193 | settles a completed stream with its reported total, refunds an incomplete one, and otherwise keeps the estimate |
| Accounting.Gateway.RefundTokens | gateway/main.py:116-123 | settles with zero usage; the request slot stays charged |
| Accounting.Gateway.Complete | gateway/main.py:262-333 | a request that is not streamed: cache read, walk, correction and cache write together |
| SettlementRuns.RequestsAreLedgerRuns | gateway/main.py:209-311 | any interleaving of handlers, each running its log, is at every moment a legal run of the ledger with the tenant's keys as its account and each admitted request in it once, reserved until it ends and then settled as its ending calls for |
| SettlementRuns.AtEveryMoment | gateway/main.py:209-311 | at every moment the bucket holds capacity + refill + gifts − overflow − what the admitted requests are charged, and never more together with the charges than was granted |
| SettlementRuns.AtQuiescence | gateway/main.py:116-193 | when all handlers are done, what is missing from the bucket is the overflow and the sum of the admitted requests' net charges |
| Settlement.StreamCharge | gateway/main.py:174-193 | a stream that opened is charged 0 if it broke or was closed early, else the last chunk's total, else the estimate |
| Settlement.CallRequest | gateway/main.py:258-333 | handler, walk and charge together: a request the cache missed is answered by the first target that is reached and responds, charged its reported total or the estimate, and leaves that call's sample; the status of an error is surfaced exactly if it is neither 429 nor at least 500 and its target is reached; every other ending has its status, charge 0 and no sample |
| Settlement.HitRequest | gateway/main.py:262-279 | a cache hit is answered with the stored completion, charged 0, and leaves the executor alone |
| Settlement.RepeatIsServed | gateway/main.py:323-333 | what a request stores in a cache that was empty answers the same query with the same completion until the time to live counted from the store is over, and not after, whichever way the lookup goes |
| Settlement.LevelsAfterRequest | gateway/main.py:244-311 | with nobody else at its awaits a request takes one slot and its net charge from the refilled levels; a hit takes the slot alone |
| Settlement.FailedRequest | gateway/main.py:292-304 | when nobody serves: the status the last target's upstream gave, 503 if it has no adapter, 502 for a refusal, a time-out, no connection, or no target |
| Settlement.GivesWay | gateway/main.py:244-311 | at the limiter an admitted request gives way to others for its embedding, unless it is streamed, and for its upstream, unless the cache serves it; its own check comes first and its correction last |
| Settlement.JobIsTheRequest | gateway/main.py:281-283 | what the executor walks over is the request's: its targets' providers in order, and at each what that target would do, the answer being the error it raises if any |
| Settlement.StreamedRequest | gateway/main.py:135-206 | the same for a stream with fallback: it is served the stream of the first target that is reached and opens, charged for how that ended, and never served one that fails before its first chunk |
| Settlement.SlotChargedWithoutAttempt | gateway/main.py:292-304 | the slot is kept however a request ends; its walk attempts nothing exactly with a negative deadline or when no configured provider of the list is admitted at the start, and then the tokens are refunded |
| Settlement.SlotExample | gateway/main.py:116-123 | a request whose only provider is not configured: answered 503, no attempt, tokens back, slot gone |
| Signals.RoutingSignals.RecordLatency | gateway/routing/signals.py:21-28 | the stored averages are those of all samples so far, per provider |
| Policies.PickedOnItsInterval | gateway/routing/policies.py:37-45 | without negative weights each target is picked exactly on its own stretch of the draw, as long as its weight |
| Policies.AlwaysPicksIff | gateway/routing/policies.py:37-45 | with any weights: a pass is certain to pick exactly when some prefix weighs at least as much as the highest draw |
| Policies.Weighted | gateway/routing/policies.py:30-46 | for any weights and any draws the loops give the order of repeated picks without replacement and what is still waiting |
| Policies.NoneLost | gateway/routing/policies.py:34-46 | every target is in that order once or still waiting |
| Policies.WeightedIsPermutation | gateway/routing/policies.py:34-46 | without negative weights as many draws as there are targets order all of them |
| Policies.PickedInOrder | gateway/routing/policies.py:37-45 | place i of the result holds the target on whose stretch draw i falls, among those left by the places before it |
| Policies.FirstIsTheWeightedPick | gateway/routing/policies.py:30-46 | the first target of the result is one on whose stretch the first draw falls, and only such a one |
| Policies.OrderOnlyGrows | gateway/routing/policies.py:34-46 | later passes only add to the end |
| Policies.SureToEndIff | gateway/routing/policies.py:34-46 | some number of draws is sure to be enough exactly when no weight is negative |
| Policies.LatencyAwareOrder | gateway/routing/policies.py:49-66 | a permutation: sampled providers first, by latency; the rest and ties as configured; for every pair, both directions; as configured without signals |
| Policies.CostAwareOrder | gateway/routing/policies.py:69-81 | a permutation by unit price, ties as configured; for every pair, both directions; as configured without signals |
| ControlLoop.AverageOfProvider | gateway/routing/signals.py:21-32 | a provider's average is that of its own samples, and only sampled providers have one |
| ControlLoop.ClosedForm | gateway/routing/signals.py:23-28 | the average is the sum of the samples with geometrically fading weights |
| ControlLoop.StaysInHull | gateway/routing/signals.py:23-28 | it never leaves the range of the samples |
| ControlLoop.Converges | gateway/routing/signals.py:23-28 | each sample in a range shrinks the distance to it by the factor 1 - alpha |
| ControlLoop.EnoughSamples | gateway/routing/signals.py:23-28 | an explicit number of samples brings it within any gap |
| ControlLoop.FasterProviderGoesFirst | gateway/routing/policies.py:59-66 | after that number, latency-aware routing puts the provider ahead of every one whose average stays a gap above |

## Left out

- HTTP, FastAPI, httpx, the Redis transport, metrics, logging, authentication and configuration: the model
  starts from parsed requests and known tenants.
- The embedding model, the tokenizer and the inside of the vector index: a query is a vector, an estimate is
  any natural number, a search is exact. The index's dimension check is not modelled; inner products of
  vectors of different lengths stop at the shorter one.
- Floating-point and text rounding: the script formats its answer and its stored levels as text with a limited
  number of digits; the model keeps exact reals.
- Task cancellation and exceptions that the executor does not catch: an admitted call always ends in one of the
  outcomes that the loops record.
- A stream whose body is never started: its end-of-stream action does not run and its estimate stays charged.
- The executor without routing signals: it always has them here.
- The model name written into a copy of the request for each target: it does not influence the walk.
- Other requests' use of the cache while a request awaits its upstream: the handler's two cache accesses follow
  each other; each is proved for every state of the cache.
- The order of other requests' moves on the limiter and on the executor within one await: they touch different
  objects, and the model runs the limiter's first. What others do to the executor after this request's loop,
  while its stream is sent, is left out of the handler's contract.
- Negative sizes: a cache with a negative cap would pop an empty order, a window of negative length cannot be
  built.
- The random generator: any list of reals stands for its draws, cut off to the range between 0 and the total
  weight, both ends included; the weighted loop stops where the list does.
- Router, price book and provider registry: they only look names up in configured tables.
- Ledger.Conservation: settlements that find the token key expired are excluded, because they break the tenant's
  limiter; RetryAfter.CheckFaultsIffLate says exactly when that happens.
- Ledger.WindowBound: the gateway's clock and Redis's agree that a whole life of a key has passed when it expires.
- Framing.RoundTrip: JSON is any codec that encodes an object on one braced line and decodes it to itself; line
  breaks other than the newline do not occur in such text.
- SettlementRuns.AtQuiescence: corrections that find the token key expired are excluded, as in
  Ledger.Conservation.
- CacheRuns.IncompleteIff: is about lookups in which no expired item is exactly as similar as the best live one;
  with such a tie either outcome is allowed, and CacheRuns.IncompleteBetween has the bounds that remain.
- ScopeRuns.ScopesDoNotInterfere: runs that fill the cache are excluded, since eviction is global.
