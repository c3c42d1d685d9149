/** What becomes of one admitted request (gateway/main.py with gateway/resilience/retry.py): the
    answer, the charge and the latency sample that its walk over the targets leads to, and when its
    request slot is charged although nothing was tried. */
module Settlement {
  import opened Prelude
  import opened Histories
  import opened Limiter
  import opened Accounting
  import opened Policies
  import Cache
  import CacheRuns
  import Executor
  import ExecutorRuns
  import Streaming

  // ---------------------------------------------------------------- calls

  /** The error, if any, with which the target's upstream meets the request. */
  function ErrorAt(req: Request, w: World, i: nat): Option<Executor.Error>
    requires Fits(req, w) && i < |req.targets|
  {
    if req.stream then
      if w.openings[i].answer.Failed? then Some(w.openings[i].answer.error) else None
    else
      if w.calls[i].answer.Raised? then Some(w.calls[i].answer.error) else None
  }

  /** The job that the executor is given is the request's: its targets' providers, and what each target
      would do with it. */
  lemma {:induction false} JobIsTheRequest(k: Executor.Settings, configured: set<string>, req: Request, w: World,
      start: real)
    requires Fits(req, w)
    ensures var job := JobOf(k, configured, req, w, start);
            && job.k == k && job.configured == configured && job.start == start
            && |job.providers| == |job.turns| == |req.targets|
            && forall i | 0 <= i < |req.targets| ::
                 && job.providers[i] == req.targets[i].provider
                 && job.turns[i].answer == ErrorAt(req, w, i)
                 && job.turns[i].draw == (if req.stream then w.openings[i].draw else w.calls[i].draw)
                 && job.turns[i].nap == (if req.stream then w.openings[i].nap else w.calls[i].nap)
                 && job.turns[i].call == (if req.stream then w.openings[i].call else w.calls[i].call)
  {
    forall i | 0 <= i < |req.targets|
      ensures ErrorAt(req, w, i) == if req.stream then Executor.OpeningError(w.openings[i].answer)
                                    else Executor.ReplyError(w.calls[i].answer)
    {
      if req.stream {
        OpeningFails(w.openings[i].answer);
      } else {
        CallFails(w.calls[i].answer);
      }
    }
  }

  lemma {:induction false} CallFails<R>(r: Executor.Reply<R>)
    ensures Executor.ReplyError(r) == if r.Raised? then Some(r.error) else None
  {
  }

  lemma {:induction false} OpeningFails<C>(o: Executor.Opening<C>)
    ensures Executor.OpeningError(o) == if o.Failed? then Some(o.error) else None
  {
  }

  /** The error that ends a request: its target is reached and answers with a status that is no reason
      to fall back. */
  ghost predicate Surfaces(job: Executor.Job, begun: Executor.World, req: Request, w: World, i: nat, code: int)
    requires job.Valid() && Fits(req, w) && |job.providers| == |req.targets|
  {
    && i < |req.targets| && Reached(job, begun, i)
    && ErrorAt(req, w, i) == Some(Executor.Status(code)) && code != 429 && code < 500
  }

  /** The target at position `i` is the one to answer: those before it were passed over in time, and
      at its turn it is on time, configured and admitted. */
  ghost predicate Reached(job: Executor.Job, begun: Executor.World, i: nat)
    requires job.Valid() && i < |job.providers|
  {
    && ExecutorRuns.AllPassedOver(job, begun, i) && ExecutorRuns.OnTime(job, begun, i)
    && ExecutorRuns.Tryable(job, begun, i)
  }

  /** A request that is not streamed and that the cache missed, from its walk to its answer: it gets
      the completion of the first target that is reached and answers, is charged that completion's
      total, or its estimate if that reports none, and leaves that call's latency sample. Otherwise
      it gets the error's status, is charged nothing and leaves no sample. */
  lemma {:induction false} CallRequest(k: Executor.Settings, configured: set<string>, req: Request, w: World,
      begun: Executor.World, run: Executor.Run, after: Executor.World)
    requires Fits(req, w) && !req.stream && w.cached.None?
    requires IsWalk(k, configured, req, w, begun, run) && Routed(req, w, begun, run, after)
    ensures var job := CallJob(k, configured, req, w, begun.now);
            forall i | 0 <= i < |req.targets| ::
              run.verdict == Executor.Served(i) <==> Reached(job, begun, i) && w.calls[i].answer.Responded?
    ensures var job := CallJob(k, configured, req, w, begun.now);
            forall i: nat, code :: run.verdict == Executor.Surfaced(i, code) <==> Surfaces(job, begun, req, w, i, code)
    ensures after == run.world
    ensures match run.verdict
            case Served(i) =>
              && i < |req.targets| && w.calls[i].answer.Responded?
              && var c := w.calls[i].answer.response;
              && w.called == Executor.Returned(c, req.targets[i]) && ResponseOf(req, w) == Body(c.body)
              && NetCharge(EndingOf(req, w), req.estimate) == c.total.GetOr(req.estimate)
              && SampledOnce(run, req.targets[i].provider)
            case Surfaced(_, code) => Refunded(req, w, run, code)
            case AllFailed(last) => Refunded(req, w, run, FailureStatus(last))
  {
    var job := CallJob(k, configured, req, w, begun.now);
    assert run == Executor.Walk(JobOf(k, configured, req, w, begun.now), begun) == Executor.Walk(job, begun);
    JobIsTheRequest(k, configured, req, w, begun.now);
    ServedExactly(job, begun);
    SurfacedExactly(job, begun, req, w);
    WalkSamples(job, begun);
  }

  /** A cache hit: the client gets the stored completion, is charged nothing, and the executor is left
      alone. */
  lemma {:induction false} HitRequest(req: Request, w: World, begun: Executor.World, run: Executor.Run,
      after: Executor.World)
    requires !req.stream && w.cached.Some? && Routed(req, w, begun, run, after)
    ensures ResponseOf(req, w) == Body(w.cached.value) && after == begun
    ensures NetCharge(EndingOf(req, w), req.estimate) == 0
  {
  }

  /** In levels: a request with nobody else at its awaits takes one slot and its net charge from what
      the buckets held, refilled, at its check; a cache hit, then, takes the slot alone. */
  lemma {:induction false} LevelsAfterRequest(t: Tenant, windowS: int, acct: Account, req: Request, w: World)
    requires windowS > 0 && MovesOf(req, w) == [] && Admits(t, windowS, acct, Admission(req, w))
    requires var e := Script(ArgsFor(t, windowS, w.now, req.estimate), w.server, LiveAccount(acct, w.server));
             NetCharge(EndingOf(req, w), req.estimate) != req.estimate ==> Live(e.after.tok, w.later).Hash?
    ensures var a := ArgsFor(t, windowS, w.now, req.estimate);
            var req0 := Level(Live(acct.req, w.server), a.reqCap, a.reqRate, a.now);
            var tok0 := Level(Live(acct.tok, w.server), a.tokCap, a.tokRate, a.now);
            var done := Replayed(t, windowS, acct, LogOf(t, windowS, acct, req, w));
            && req0.Some? && done.req.Hash? && done.req.tokens == req0.value - 1.0
            && tok0.Some? && done.tok.Hash?
            && done.tok.tokens == tok0.value - NetCharge(EndingOf(req, w), req.estimate) as real
            && (!req.stream && w.cached.Some? ==> done.tok.tokens == tok0.value)
  {
    AdmissionLog(t, windowS, acct, req, w);
  }

  /** An admitted request gives way to others for its embedding, unless it is streamed, and for its
      upstream, unless the cache serves it, and for nothing else. */
  lemma {:induction false} GivesWay(t: Tenant, windowS: int, acct: Account, req: Request, w: World)
    requires windowS > 0 && Admits(t, windowS, acct, Admission(req, w))
    ensures var log, closing := LogOf(t, windowS, acct, req, w), |Closing(req, w)|;
            var early, late := if req.stream then [] else w.early, if !req.stream && w.cached.Some? then [] else w.late;
            && |log| == 1 + |early| + |late| + closing
            && log[0].Mine? && (forall i | |log| - closing <= i < |log| :: log[i].Mine?)
            && (forall i | 0 <= i < |early| :: log[1 + i] == Theirs(early[i]))
            && (forall i | 0 <= i < |late| :: log[1 + |early| + i] == Theirs(late[i]))
  {
  }

  /** Reuse: what a request stores in a cache that was empty answers the same query with the same
      completion until the time to live counted from the store is over; however the lookup goes. */
  lemma {:induction false} RepeatIsServed(g: Gateway, req: Request, w: World, id: nat, now: real, dropped: set<nat>,
      hit: Option<Cache.Item>, after: seq<Cache.Item>)
    requires g.cache != null && g.cache.maxEntries >= 1 && w.called.Returned?
    requires var items := g.Stored(req, w, [], id);
             Cache.Looked(items, req.scope, Cache.Like(req.vec), now, g.cache.threshold, dropped, hit, after)
    ensures var lives := g.cache.ttlS.None? || g.cache.ttlS.value == 0.0 || now - w.stored < g.cache.ttlS.value;
            if lives && Cache.Similarity(req.vec, req.vec) >= g.cache.threshold
            then hit.Some? && hit.value.response == w.called.value.body
            else hit == None
  {
    var x := g.NewItem(req, w, id);
    assert g.Stored(req, w, [], id) == [x];
    CacheRuns.ServedForItsTime(
      x, g.cache.ttlS, w.stored, Cache.Like(req.vec), now, g.cache.threshold, dropped, hit, after);
  }

  /** The status that the target before position `m` leaves when it is passed over; 502 if there is none. */
  ghost predicate LeavesStatus(job: Executor.Job, begun: Executor.World, req: Request, w: World, m: nat, status: int)
    requires job.Valid() && Fits(req, w) && |job.providers| == |req.targets| && m <= |req.targets|
  {
    if m == 0 then status == 502
    else if job.providers[m - 1] !in job.configured then status == 503
    else if !ExecutorRuns.Tryable(job, begun, m - 1) then status == 502
    else match ErrorAt(req, w, m - 1)
         case Some(Status(code)) => status == code
         case _ => status == 502
  }

  lemma {:induction false} StatusOfLast(job: Executor.Job, begun: Executor.World, req: Request, w: World, m: nat)
    returns (status: int)
    requires job.Valid() && Fits(req, w) && |job.providers| == |req.targets| && m <= |req.targets|
    requires m > 0 ==> job.turns[m - 1].answer == ErrorAt(req, w, m - 1)
    requires ExecutorRuns.AllPassedOver(job, begun, m)
    ensures status == FailureStatus(Executor.Through(job, begun, m).last)
    ensures LeavesStatus(job, begun, req, w, m, status)
  {
    ExecutorRuns.LastCause(job, begun, m);
    status := FailureStatus(Executor.Through(job, begun, m).last);
  }

  lemma {:induction false} FailureResponse(req: Request, w: World, begun: Executor.World, run: Executor.Run,
      after: Executor.World)
    requires (req.stream || w.cached.None?) && Routed(req, w, begun, run, after) && run.verdict.AllFailed?
    ensures ResponseOf(req, w) == Plain(FailureStatus(run.verdict.last))
  {
  }

  /** The answer when no target serves and no error is surfaced: the status of the last target whose turn
      came, as its upstream gave it, 503 if it has no adapter, and 502 for every other cause. */
  lemma {:induction false} FailedRequest(k: Executor.Settings, configured: set<string>, req: Request, w: World,
      begun: Executor.World, run: Executor.Run, after: Executor.World)
    returns (m: nat, status: int)
    requires Fits(req, w) && (req.stream || w.cached.None?)
    requires IsWalk(k, configured, req, w, begun, run) && Routed(req, w, begun, run, after) && run.verdict.AllFailed?
    ensures ResponseOf(req, w) == Plain(status)
    ensures var job := JobOf(k, configured, req, w, begun.now);
            && m <= |req.targets| && ExecutorRuns.AllPassedOver(job, begun, m)
            && (m == |req.targets| || !ExecutorRuns.OnTime(job, begun, m))
            && LeavesStatus(job, begun, req, w, m, status)
  {
    var job := JobOf(k, configured, req, w, begun.now);
    assert run == Executor.Walk(job, begun);
    JobIsTheRequest(k, configured, req, w, begun.now);
    m := ExecutorRuns.FailsWithLastCause(job, begun);
    status := StatusOfLast(job, begun, req, w, m);
    FailureResponse(req, w, begun, run, after);
  }

  /** The request's own samples: one, of this provider, as long as its last attempt took. */
  ghost predicate SampledOnce(run: Executor.Run, provider: string) {
    && run.attempts != []
    && var last := run.attempts[|run.attempts| - 1];
       ExecutorRuns.OwnSamples(run.log) == [Executor.Sample(provider, last.ended - last.started)]
  }

  ghost predicate Refunded(req: Request, w: World, run: Executor.Run, status: int) {
    && ResponseOf(req, w) == Plain(status) && NetCharge(EndingOf(req, w), req.estimate) == 0
    && ExecutorRuns.OwnSamples(run.log) == []
  }

  lemma {:induction false} ServedExactly(job: Executor.Job, begun: Executor.World)
    requires job.Valid()
    ensures forall i | 0 <= i < |job.providers| ::
              Executor.Walk(job, begun).verdict == Executor.Served(i)
              <==> Reached(job, begun, i) && job.turns[i].answer.None?
    ensures var verdict := Executor.Walk(job, begun).verdict; verdict.Served? ==> verdict.at < |job.providers|
  {
    ExecutorRuns.FirstUsableIsServed(job, begun);
  }

  lemma {:induction false} SurfacedExactly(job: Executor.Job, begun: Executor.World, req: Request, w: World)
    requires job.Valid() && Fits(req, w) && |job.providers| == |req.targets|
    requires forall i | 0 <= i < |req.targets| :: job.turns[i].answer == ErrorAt(req, w, i)
    ensures forall i: nat, code ::
              Executor.Walk(job, begun).verdict == Executor.Surfaced(i, code)
              <==> Surfaces(job, begun, req, w, i, code)
  {
    ExecutorRuns.FirstUsableIsServed(job, begun);
  }

  lemma {:induction false} WalkSamples(job: Executor.Job, begun: Executor.World)
    requires job.Valid()
    ensures var run := Executor.Walk(job, begun);
            if run.verdict.Served? then
              run.verdict.at < |job.providers| && SampledOnce(run, job.providers[run.verdict.at])
            else ExecutorRuns.OwnSamples(run.log) == []
  {
    ExecutorRuns.OnlyServedIsSampled(job, begun, |job.providers|);
  }

  // ---------------------------------------------------------------- streams

  /** A stream of the lookahead adapter that opens is charged its estimate only if the client took
      the whole stream and the last chunk reported no total; nothing if the client closed early or
      the provider broke off. */
  lemma {:induction false} StreamCharge(up: Streaming.Upstream, patience: nat, estimate: nat)
    ensures match Streaming.Peek(Streaming.Lookahead(up))
            case NotOpened => up.ending == Streaming.Broken && |up.chunks| <= 1
            case Opened(first, rest) =>
              var finish := Streaming.Emitted(Streaming.Given(first, rest), patience).effects[1];
              var final := Streaming.FinalUsage(up);
              NetCharge(Streamed(finish.usage, finish.completed), estimate)
              == if up.ending == Streaming.Broken || patience <= |up.chunks| then 0
                 else if final.Some? && final.value.totalTokens.Some? then final.value.totalTokens.value
                 else estimate
  {
    Streaming.PipelineUnderAbort(up, patience);
  }

  /** What the executor gets from an adapter's stream; the error is raised if it does not open. */
  function OpeningOf(stream: Streaming.Upstream, error: Executor.Error): Executor.Opening<Head> {
    match Streaming.Peek(stream)
    case NotOpened => Executor.Failed(error)
    case Opened(None, _) => Executor.NoContent
    case Opened(Some(first), rest) => Executor.FirstChunk(Head(first, rest))
  }

  /** The adapters of the targets would stream so. */
  predicate Offers(w: World, streams: seq<Streaming.Upstream>, errors: seq<Executor.Error>) {
    && |streams| == |errors| == |w.openings|
    && forall i | 0 <= i < |streams| :: w.openings[i].answer == OpeningOf(streams[i], errors[i])
  }

  /** What a stream is charged: nothing unless the client has taken all of it, then its reported total,
      or the estimate. */
  function ChargeOf(stream: Streaming.Upstream, patience: nat, estimate: nat): int {
    var usage := Streaming.LastUsage(stream.chunks);
    if stream.ending == Streaming.Broken || patience <= |stream.chunks| then 0
    else if usage.Some? && usage.value.totalTokens.Some? then usage.value.totalTokens.value
    else estimate
  }

  lemma {:induction false} OpenStreamIsWhole(stream: Streaming.Upstream, error: Executor.Error)
    ensures var o := OpeningOf(stream, error);
            && (o.Failed? <==> Streaming.Peek(stream).NotOpened?)
            && (!o.Failed? ==> Whole(if o.FirstChunk? then Some(o.chunk) else None) == stream)
  {
    Streaming.PeekLosesNothing(stream);
  }

  /** A streamed request, from its walk to its last frame: it is served the stream of the first target
      that is reached and opens, never one that fails before its first chunk, and is charged for that
      stream. Otherwise it gets the error's status and is charged nothing. */
  lemma {:induction false} StreamedRequest(k: Executor.Settings, configured: set<string>, req: Request, w: World,
      begun: Executor.World, run: Executor.Run, after: Executor.World,
      streams: seq<Streaming.Upstream>, errors: seq<Executor.Error>)
    requires Fits(req, w) && req.stream && Offers(w, streams, errors)
    requires IsWalk(k, configured, req, w, begun, run) && Routed(req, w, begun, run, after)
    ensures var job := StreamJob(k, configured, req, w, begun.now);
            forall i | 0 <= i < |req.targets| ::
              run.verdict == Executor.Served(i) <==> Reached(job, begun, i) && Streaming.Peek(streams[i]).Opened?
    ensures var job := StreamJob(k, configured, req, w, begun.now);
            forall i: nat, code :: run.verdict == Executor.Surfaced(i, code) <==> Surfaces(job, begun, req, w, i, code)
    ensures after == run.world
    ensures match run.verdict
            case Served(i) =>
              && i < |streams| && Streaming.Peek(streams[i]).Opened?
              && w.peeked.Returned? && w.peeked.target == req.targets[i]
              && ResponseOf(req, w) == Stream(Streaming.Emitted(streams[i], w.patience).frames)
              && NetCharge(EndingOf(req, w), req.estimate) == ChargeOf(streams[i], w.patience, req.estimate)
              && SampledOnce(run, req.targets[i].provider)
            case Surfaced(_, code) => Refunded(req, w, run, code)
            case AllFailed(last) => Refunded(req, w, run, FailureStatus(last))
  {
    var job := StreamJob(k, configured, req, w, begun.now);
    assert run == Executor.Walk(JobOf(k, configured, req, w, begun.now), begun) == Executor.Walk(job, begun);
    JobIsTheRequest(k, configured, req, w, begun.now);
    ServedExactly(job, begun);
    SurfacedExactly(job, begun, req, w);
    WalkSamples(job, begun);
    forall i | 0 <= i < |req.targets|
      ensures job.turns[i].answer.None? <==> Streaming.Peek(streams[i]).Opened?
    {
      assert job.turns[i].answer == ErrorAt(req, w, i);
      OpenStreamIsWhole(streams[i], errors[i]);
    }
    if run.verdict.Served? {
      OpenStreamIsWhole(streams[run.verdict.at], errors[run.verdict.at]);
    }
  }

  // ---------------------------------------------------------------- the request slot

  /** The request slot stays charged however a request ends. Its walk attempts nothing exactly when it
      starts past its deadline or when no configured provider of its list would be admitted as it
      starts; then its tokens are refunded. */
  lemma {:induction false} SlotChargedWithoutAttempt(k: Executor.Settings, configured: set<string>, req: Request,
      w: World, begun: Executor.World, run: Executor.Run, after: Executor.World, acct: Account)
    requires Fits(req, w) && IsWalk(k, configured, req, w, begun, run) && Routed(req, w, begun, run, after)
    ensures Settled(acct, w.later, Due(EndingOf(req, w)), req.estimate).req == acct.req
    ensures var job := JobOf(k, configured, req, w, begun.now);
            run.attempts == [] <==>
            0.0 > k.deadline || forall i | 0 <= i < |req.targets| :: ExecutorRuns.Unusable(job, begun, i)
    ensures run.attempts == [] && (req.stream || w.cached.None?) ==>
              && run.verdict.AllFailed? && ResponseOf(req, w) == Plain(FailureStatus(run.verdict.last))
              && NetCharge(EndingOf(req, w), req.estimate) == 0
  {
    var job := JobOf(k, configured, req, w, begun.now);
    assert run == Executor.Walk(job, begun);
    ExecutorRuns.NoAttemptIff(job, begun);
  }

  const TENANT := Tenant("t", 60, 600)

  /** A request whose only target has no adapter. */
  const HOPELESS := Request(Known(TENANT), true, false, 100, "s", [1.0], [Target("p", "m", 1.0)])

  /** Such a request is answered 503 without an attempt and gets its tokens back, but not its slot. */
  lemma {:induction false} SlotExample(k: Executor.Settings, w: World, begun: Executor.World, run: Executor.Run,
      after: Executor.World)
    requires k.deadline >= 0.0 && Fits(HOPELESS, w) && w.cached.None?
    requires IsWalk(k, {}, HOPELESS, w, begun, run) && Routed(HOPELESS, w, begun, run, after)
    ensures run.attempts == [] && ResponseOf(HOPELESS, w) == Plain(503)
    ensures var e := Script(ArgsFor(TENANT, 60, w.now, 100), w.server, Account(Absent, Absent));
            && e.Replied? && e.decision.allowed
            && var done := Settled(e.after, w.server, Due(EndingOf(HOPELESS, w)), 100);
               done.req.Hash? && done.tok.Hash? && done.req.tokens == 59.0 && done.tok.tokens == 600.0
  {
    var job := JobOf(k, {}, HOPELESS, w, begun.now);
    assert run == Executor.Walk(job, begun);
    SlotChargedWithoutAttempt(k, {}, HOPELESS, w, begun, run, after, Account(Absent, Absent));
    assert Executor.Through(job, begun, 1) == Executor.Visit(job, Executor.Through(job, begun, 0), 0);
  }
}
