/** A request through the gateway (gateway/main.py): it is charged once at admission, awaits while
    other requests are charged, corrected and use the breakers, reads the cache, runs the
    executor's fallback over its targets, and is corrected at most once when it ends. */
module Accounting {
  import opened Prelude
  import opened Histories
  import opened Limiter
  import opened RetryAfter
  import opened Policies
  import Cache
  import Streaming
  import Executor
  import ExecutorRuns

  /** What becomes of an admitted request. */
  datatype Ending =
    | CacheHit
    | ClientError(code: int)
    | NoneServed(last: Option<Executor.Cause>)
    | Answered(total: Option<int>)
    | Streamed(usage: Option<Streaming.Usage>, completed: bool)

  /** The usage with which the request is settled, if it is. */
  function Due(e: Ending): Option<int> {
    match e
    case CacheHit => Some(0)
    case ClientError(_) => Some(0)
    case NoneServed(_) => Some(0)
    case Answered(total) => total
    case Streamed(usage, completed) =>
      if !completed then Some(0) else if usage.Some? then usage.value.totalTokens else None
  }

  /** What the request is charged in the end. */
  function NetCharge(e: Ending, estimate: nat): int {
    Due(e).GetOr(estimate)
  }

  /** What another request of the tenant does to the limiter. */
  datatype Move =
    | Charge(now: real, server: real, estimate: int)
    | Correct(server: real, actual: int, estimate: int)

  function Moved(t: Tenant, windowS: int, acct: Account, m: Move): Account
    requires windowS > 0
  {
    match m
    case Charge(now, server, estimate) => Touched(acct, Checked(ArgsFor(t, windowS, now, estimate), server))
    case Correct(server, actual, estimate) => Touched(acct, Corrected(server, actual, estimate))
  }

  function MovedAll(t: Tenant, windowS: int, acct: Account, moves: seq<Move>): Account
    requires windowS > 0
  {
    if moves == [] then acct
    else Moved(t, windowS, MovedAll(t, windowS, acct, moves[..|moves| - 1]), moves[|moves| - 1])
  }

  function Settled(acct: Account, server: real, due: Option<int>, estimate: int): Account {
    match due
    case None => acct
    case Some(actual) => Reconciled(acct, server, actual, estimate)
  }

  datatype Auth = Off | BadKey | Known(tenant: Tenant)

  /** `scope` and `vec` are the request's cache scope and its embedded query, `targets` what its
      alias stands for. */
  datatype Request = Request(
    auth: Auth, aliasKnown: bool, stream: bool, estimate: nat, scope: string, vec: Cache.Vec, targets: seq<Target>)

  datatype Completion = Completion(body: Cache.Response, total: Option<int>)

  /** An open stream: its first chunk and what is still to come. */
  datatype Head = Head(first: Streaming.Chunk, rest: Streaming.Upstream)

  /** What a request meets: the limiter's and the cache's clocks, other requests' moves on the limiter
      while the query is embedded and while the upstream is called, their moves on the executor
      before this request's loop, what each target would do, and the client's patience with a
      stream. Then what comes of it: the cached answer, and what the executor returns or raises. */
  datatype World = World(
    now: real, server: real, later: real,
    lookedUp: real, stored: real,
    early: seq<Move>, late: seq<Move>,
    before: seq<Executor.Move>,
    calls: seq<Executor.Turn<Executor.Reply<Completion>>>,
    openings: seq<Executor.Turn<Executor.Opening<Head>>>,
    patience: nat,
    cached: Option<Cache.Response>,
    called: Executor.Result<Completion>,
    peeked: Executor.Result<Option<Head>>)

  predicate Fits(req: Request, w: World) {
    |w.calls| == |w.openings| == |req.targets|
  }

  datatype Response =
    | Body(completion: Cache.Response)
    | Plain(status: int)
    | Throttled(blocked: Dimension, retryAfter: int)
    | Stream(frames: seq<Streaming.Frame>)

  /** The status of a request that no target served: the last upstream's, if there was one. A
      provider without an adapter counts as an upstream that is unavailable. */
  function FailureStatus(last: Option<Executor.Cause>): int {
    match last
    case Some(NotConfigured(_)) => 503
    case Some(Upstream(Status(code))) => code
    case _ => 502
  }

  function CallEnding(called: Executor.Result<Completion>): Ending {
    match called
    case Returned(c, _) => Answered(c.total)
    case RaisedUpstream(code) => ClientError(code)
    case RaisedAllFailed(last) => NoneServed(last)
  }

  /** The stream that the executor has opened, put together again. */
  function Whole(head: Option<Head>): Streaming.Upstream {
    match head
    case None => Streaming.Upstream([], Streaming.Exhausted)
    case Some(Head(first, rest)) => Streaming.Given(Some(first), rest)
  }

  function StreamEnding(w: World): Ending {
    match w.peeked
    case RaisedUpstream(code) => ClientError(code)
    case RaisedAllFailed(last) => NoneServed(last)
    case Returned(head, _) =>
      var finish := Streaming.Emitted(Whole(head), w.patience).effects[1];
      Streamed(finish.usage, finish.completed)
  }

  function EndingOf(req: Request, w: World): Ending {
    if req.stream then StreamEnding(w) else if w.cached.Some? then CacheHit else CallEnding(w.called)
  }

  function MovesOf(req: Request, w: World): seq<Move> {
    if req.stream then w.late else if w.cached.Some? then w.early else w.early + w.late
  }

  function CallResponse(called: Executor.Result<Completion>): Response {
    match called
    case Returned(c, _) => Body(c.body)
    case RaisedUpstream(code) => Plain(code)
    case RaisedAllFailed(last) => Plain(FailureStatus(last))
  }

  function StreamResponse(w: World): Response {
    match w.peeked
    case Returned(head, _) => Stream(Streaming.Emitted(Whole(head), w.patience).frames)
    case RaisedUpstream(code) => Plain(code)
    case RaisedAllFailed(last) => Plain(FailureStatus(last))
  }

  function ResponseOf(req: Request, w: World): Response {
    if req.stream then StreamResponse(w)
    else if w.cached.Some? then Body(w.cached.value)
    else CallResponse(w.called)
  }

  // ---------------------------------------------------------------- the executor

  function CallJob(k: Executor.Settings, configured: set<string>, req: Request, w: World, start: real): Executor.Job {
    Executor.Job(k, Executor.Providers(req.targets), configured, Executor.Plain(w.calls, Executor.ReplyError), start)
  }

  function StreamJob(k: Executor.Settings, configured: set<string>, req: Request, w: World, start: real): Executor.Job {
    Executor.Job(k, Executor.Providers(req.targets), configured,
                 Executor.Plain(w.openings, Executor.OpeningError), start)
  }

  function JobOf(k: Executor.Settings, configured: set<string>, req: Request, w: World, start: real): Executor.Job {
    if req.stream then StreamJob(k, configured, req, w, start) else CallJob(k, configured, req, w, start)
  }

  /** What `execute` returns or raises when its walk ends so; a target that is served has answered. */
  function Called(targets: seq<Target>, calls: seq<Executor.Turn<Executor.Reply<Completion>>>,
                  verdict: Executor.Verdict): Option<Executor.Result<Completion>>
  {
    match verdict
    case Served(i) =>
      if i < |targets| == |calls| && calls[i].answer.Responded? then
        Some(Executor.Returned(calls[i].answer.response, targets[i]))
      else None
    case Surfaced(_, code) => Some(Executor.RaisedUpstream(code))
    case AllFailed(last) => Some(Executor.RaisedAllFailed(last))
  }

  /** And `execute_stream`; an empty stream has no head. */
  function Peeked(targets: seq<Target>, openings: seq<Executor.Turn<Executor.Opening<Head>>>,
                  verdict: Executor.Verdict): Option<Executor.Result<Option<Head>>>
  {
    match verdict
    case Served(i) =>
      if i < |targets| == |openings| && !openings[i].answer.Failed? then
        var o := openings[i].answer;
        Some(Executor.Returned(if o.FirstChunk? then Some(o.chunk) else None, targets[i]))
      else None
    case Surfaced(_, code) => Some(Executor.RaisedUpstream(code))
    case AllFailed(last) => Some(Executor.RaisedAllFailed(last))
  }

  /** The request's walk over its targets, begun in that state. The trigger keeps the walk abstract
      where only its outcome matters. */
  ghost predicate IsWalk(k: Executor.Settings, configured: set<string>, req: Request, w: World,
                         begun: Executor.World, run: Executor.Run)
    requires Fits(req, w)
  {
    forall job {:trigger Executor.Walk(job, begun)} | job == JobOf(k, configured, req, w, begun.now) ::
      run == Executor.Walk(job, begun)
  }

  /** The walk takes the executor from one state to the other, and the handler gets what it comes to.
      A cache hit does not get that far. */
  ghost predicate Routed(req: Request, w: World, begun: Executor.World, run: Executor.Run, after: Executor.World) {
    if req.stream then after == run.world && Peeked(req.targets, w.openings, run.verdict) == Some(w.peeked)
    else if w.cached.Some? then after == begun
    else after == run.world && Called(req.targets, w.calls, run.verdict) == Some(w.called)
  }

  /** A call that is served has been answered. */
  lemma {:induction false} ServedIsAnswered(k: Executor.Settings, configured: set<string>, req: Request, w: World,
      begun: Executor.World)
    requires Fits(req, w)
    ensures var verdict := Executor.Walk(CallJob(k, configured, req, w, begun.now), begun).verdict;
            verdict.Served? ==> verdict.at < |w.calls| && w.calls[verdict.at].answer.Responded?
  {
    var job := CallJob(k, configured, req, w, begun.now);
    var verdict := Executor.Walk(job, begun).verdict;
    ExecutorRuns.FirstUsableIsServed(job, begun);
    if verdict.Served? {
      assert job.turns[verdict.at].answer == Executor.ReplyError(w.calls[verdict.at].answer);
    }
  }

  /** A stream that is served has opened. */
  lemma {:induction false} ServedIsOpen(k: Executor.Settings, configured: set<string>, req: Request, w: World,
      begun: Executor.World)
    requires Fits(req, w)
    ensures var verdict := Executor.Walk(StreamJob(k, configured, req, w, begun.now), begun).verdict;
            verdict.Served? ==> verdict.at < |w.openings| && !w.openings[verdict.at].answer.Failed?
  {
    var job := StreamJob(k, configured, req, w, begun.now);
    var verdict := Executor.Walk(job, begun).verdict;
    ExecutorRuns.FirstUsableIsServed(job, begun);
    if verdict.Served? {
      assert job.turns[verdict.at].answer == Executor.OpeningError(w.openings[verdict.at].answer);
    }
  }

  // ---------------------------------------------------------------- what a request does to the limiter

  predicate Admits(t: Tenant, windowS: int, acct: Account, m: Move)
    requires windowS > 0
  {
    m.Charge? &&
    var e := Script(ArgsFor(t, windowS, m.now, m.estimate), m.server, LiveAccount(acct, m.server));
    e.Replied? && e.decision.allowed
  }

  function Admission(req: Request, w: World): Move {
    Charge(w.now, w.server, req.estimate)
  }

  function Closing(req: Request, w: World): seq<Event<Move>> {
    match Due(EndingOf(req, w))
    case None => []
    case Some(actual) => [Mine(Correct(w.later, actual, req.estimate))]
  }

  /** All a request of a known tenant does to the limiter, with what others do at its awaits. */
  function LogOf(t: Tenant, windowS: int, acct: Account, req: Request, w: World): seq<Event<Move>>
    requires windowS > 0
  {
    [Mine(Admission(req, w))]
    + if Admits(t, windowS, acct, Admission(req, w)) then Others(MovesOf(req, w)) + Closing(req, w) else []
  }

  function Replayed(t: Tenant, windowS: int, acct: Account, log: seq<Event<Move>>): Account
    requires windowS > 0
  {
    MovedAll(t, windowS, acct, Moves(log))
  }

  /** What a lookup of the cache did: the expired items it dropped, the item it served, what it left. */
  datatype Seen = NotSeen | Seen(dropped: set<nat>, hit: Option<Cache.Item>, left: seq<Cache.Item>)

  class Gateway {
    const limiter: RateLimiter
    const cache: Cache.SemanticCache?
    const executor: Executor.ResilientExecutor
    const configured: set<string>

    constructor (limiter: RateLimiter, cache: Cache.SemanticCache?, executor: Executor.ResilientExecutor,
                 configured: set<string>)
      ensures this.limiter == limiter && this.cache == cache
      ensures this.executor == executor && this.configured == configured
    {
      this.limiter, this.cache, this.executor, this.configured := limiter, cache, executor, configured;
    }

    ghost predicate Valid()
      reads cache, executor.breakers, executor.breakers.breakers.Values, executor.signals
    {
      limiter.windowS > 0 && (cache != null ==> cache.Valid()) && executor.Valid()
    }

    /** The lookup of a request that is not streamed is one the cache allows, its answer is that of
        the item served, and a completion is stored exactly when the upstream has answered after a
        miss; a stream leaves the cache alone. */
    twostate predicate CacheUsed(req: Request, w: World, seen: Seen)
      reads cache
    {
      if cache == null then
        req.stream || w.cached.None?
      else if req.stream then
        cache.State() == old(cache.State())
      else
        && seen.Seen?
        && Cache.Looked(old(cache.Contents()), req.scope, Cache.Like(req.vec), w.lookedUp, cache.threshold,
                        seen.dropped, seen.hit, seen.left)
        && w.cached == (if seen.hit.Some? then Some(seen.hit.value.response) else None)
        && cache.Contents() == if w.cached.Some? then seen.left else Stored(req, w, seen.left, old(cache.nextId))
    }

    /** The list after a completion has been stored, if there is one. */
    function Stored(req: Request, w: World, items: seq<Cache.Item>, id: nat): seq<Cache.Item>
      requires cache != null
    {
      if w.called.Returned? then Cache.KeepLast(items + [NewItem(req, w, id)], cache.maxEntries) else items
    }

    /** What the lookup does, if there is a cache. */
    twostate predicate ReadAs(req: Request, now: real, new cached: Option<Cache.Response>, new seen: Seen)
      reads cache
    {
      if cache == null then cached.None?
      else
        && seen.Seen? && cache.nextId == old(cache.nextId) && cache.Contents() == seen.left
        && Cache.Looked(old(cache.Contents()), req.scope, Cache.Like(req.vec), now, cache.threshold,
                        seen.dropped, seen.hit, seen.left)
        && cached == if seen.hit.Some? then Some(seen.hit.value.response) else None
    }

    /** What a request stores. */
    function NewItem(req: Request, w: World, id: nat): Cache.Item
      requires cache != null && w.called.Returned?
    {
      Cache.Item(id, req.scope, req.vec, w.called.value.body, Cache.Expiry(cache.ttlS, w.stored))
    }

    /** The executor's state when the request's loop begins. */
    ghost function Begun(here: Executor.World, w: World): Executor.World
      reads {}
    {
      Executor.Replay(executor.Config(), here, w.before)
    }

    ghost function AccountFor(t: Tenant): Account
      reads limiter.client
    {
      AccountOf(limiter.client.keys, t.id)
    }

    ghost function WalkFrom(begun: Executor.World, req: Request, w: World): (run: Executor.Run)
      requires Fits(req, w)
      ensures IsWalk(executor.Config(), configured, req, w, begun, run)
    {
      Executor.Walk(JobOf(executor.Config(), configured, req, w, begun.now), begun)
    }

    twostate predicate ExecutorKept()
      reads executor.Footprint(), executor.breakers
    {
      executor.Footprint() == old(executor.Footprint()) && executor.View() == old(executor.View())
      && (old(executor.Valid()) ==> executor.Valid())
    }

    twostate lemma ExecutorUntouched(footprint: set<object>)
      requires footprint == old(executor.Footprint()) && forall o | o in footprint :: unchanged(o)
      ensures ExecutorKept()
    {
    }

    twostate predicate LimiterKept()
      reads limiter.client
    {
      limiter.client.keys == old(limiter.client.keys)
    }

    twostate predicate CacheKept()
      reads cache
    {
      cache != null ==> cache.State() == old(cache.State())
    }

    method Elsewhere(t: Tenant, m: Move)
      requires limiter.windowS > 0
      modifies limiter.client
      ensures ExecutorKept() && CacheKept()
      ensures AccountFor(t) == Moved(t, limiter.windowS, old(AccountFor(t)), m)
    {
      match m
      case Charge(now, server, estimate) =>
        var reply := limiter.Check(t, estimate, now, server);
      case Correct(server, actual, estimate) =>
        limiter.Reconcile(t, actual, estimate, server);
    }

    method Await(t: Tenant, moves: seq<Move>)
      requires limiter.windowS > 0
      modifies limiter.client
      ensures ExecutorKept() && CacheKept()
      ensures AccountFor(t) == MovedAll(t, limiter.windowS, old(AccountFor(t)), moves)
    {
      for i := 0 to |moves|
        invariant ExecutorKept() && CacheKept()
        invariant AccountFor(t) == MovedAll(t, limiter.windowS, old(AccountFor(t)), moves[..i])
      {
        Elsewhere(t, moves[i]);
        assert moves[..i + 1][..i] == moves[..i];
      }
      assert moves[..|moves|] == moves;
    }

    method RefundTokens(tenant: Option<Tenant>, estimate: int, server: real)
      modifies limiter.client
      ensures ExecutorKept() && CacheKept()
      ensures tenant.None? ==> limiter.client.keys == old(limiter.client.keys)
      ensures tenant.Some? ==>
                AccountFor(tenant.value) == Settled(old(AccountFor(tenant.value)), server, Some(0), estimate)
    {
      if tenant.Some? {
        limiter.Reconcile(tenant.value, 0, estimate, server);
      }
    }

    /** The end-of-stream action. */
    method OnFinish(tenant: Option<Tenant>, estimate: int, server: real,
                    usage: Option<Streaming.Usage>, completed: bool)
      modifies limiter.client
      ensures ExecutorKept() && CacheKept()
      ensures tenant.None? ==> limiter.client.keys == old(limiter.client.keys)
      ensures tenant.Some? ==>
                AccountFor(tenant.value)
                == Settled(old(AccountFor(tenant.value)), server, Due(Streamed(usage, completed)), estimate)
    {
      if tenant.Some? {
        var total := if usage.Some? then usage.value.totalTokens else None;
        if completed && total.Some? {
          limiter.Reconcile(tenant.value, total.value, estimate, server);
        } else if !completed {
          RefundTokens(tenant, estimate, server);
        }
      }
    }

    /** The executor's loop over the streams of the targets, up to the first byte. */
    method OpenStream(req: Request, given: World)
      returns (peeked: Executor.Result<Option<Head>>, ghost run: Executor.Run)
      requires executor.Valid() && Fits(req, given) && req.stream
      modifies executor.Footprint()
      ensures executor.Valid() && fresh(executor.Footprint() - old(executor.Footprint()))
      ensures LimiterKept() && CacheKept()
      ensures IsWalk(executor.Config(), configured, req, given, old(executor.View()), run)
      ensures executor.View() == run.world && Peeked(req.targets, given.openings, run.verdict) == Some(peeked)
    {
      ghost var begun := executor.View();
      ServedIsOpen(executor.Config(), configured, req, given, begun);
      run := Executor.Walk(StreamJob(executor.Config(), configured, req, given, begun.now), begun);
      var result := executor.ExecuteStream(req.targets, configured, given.openings);
      match result
      case Returned(o, t) => peeked := Executor.Returned(if o.FirstChunk? then Some(o.chunk) else None, t);
      case RaisedUpstream(code) => peeked := Executor.RaisedUpstream(code);
      case RaisedAllFailed(last) => peeked := Executor.RaisedAllFailed(last);
    }

    /** The executor's loop over the targets. */
    method Call(req: Request, given: World) returns (called: Executor.Result<Completion>, ghost run: Executor.Run)
      requires executor.Valid() && Fits(req, given) && !req.stream
      modifies executor.Footprint()
      ensures executor.Valid() && fresh(executor.Footprint() - old(executor.Footprint()))
      ensures LimiterKept() && CacheKept()
      ensures IsWalk(executor.Config(), configured, req, given, old(executor.View()), run)
      ensures executor.View() == run.world && Called(req.targets, given.calls, run.verdict) == Some(called)
    {
      ghost var begun := executor.View();
      ServedIsAnswered(executor.Config(), configured, req, given, begun);
      run := Executor.Walk(CallJob(executor.Config(), configured, req, given, begun.now), begun);
      var result := executor.Execute(req.targets, configured, given.calls);
      match result
      case Returned(reply, t) => called := Executor.Returned(reply.response, t);
      case RaisedUpstream(code) => called := Executor.RaisedUpstream(code);
      case RaisedAllFailed(last) => called := Executor.RaisedAllFailed(last);
    }

    /** Others' use of the executor until this request's loop begins. */
    method AwaitExecutor(moves: seq<Executor.Move>)
      requires executor.Valid()
      modifies executor.Footprint()
      ensures executor.Valid() && fresh(executor.Footprint() - old(executor.Footprint()))
      ensures LimiterKept() && CacheKept()
      ensures executor.View() == Executor.Replay(executor.Config(), old(executor.View()), moves)
    {
      executor.Await(moves);
    }

    /** Ends a streamed request. Running the response runs the stream. */
    method Emit(tenant: Option<Tenant>, req: Request, w: World) returns (r: Response)
      requires req.stream
      modifies limiter.client
      ensures ExecutorKept() && CacheKept()
      ensures r == ResponseOf(req, w)
      ensures tenant.None? ==> limiter.client.keys == old(limiter.client.keys)
      ensures tenant.Some? ==>
                AccountFor(tenant.value)
                == Settled(old(AccountFor(tenant.value)), w.later, Due(StreamEnding(w)), req.estimate)
    {
      match w.peeked
      case RaisedUpstream(code) =>
        RefundTokens(tenant, req.estimate, w.later);
        return Plain(code);
      case RaisedAllFailed(last) =>
        RefundTokens(tenant, req.estimate, w.later);
        return Plain(FailureStatus(last));
      case Returned(head, _) =>
        var first := if head.Some? then Some(head.value.first) else None;
        var rest := if head.Some? then head.value.rest else Streaming.Upstream([], Streaming.Exhausted);
        var t := Streaming.StreamSse(first, rest, w.patience);
        OnFinish(tenant, req.estimate, w.later, t.effects[1].usage, t.effects[1].completed);
        return Stream(t.frames);
    }

    /** A streamed request after admission. */
    method StreamingCompletion(tenant: Option<Tenant>, req: Request, given: World)
      returns (r: Response, ghost w: World, ghost run: Executor.Run)
      requires Valid() && req.stream && Fits(req, given)
      modifies limiter.client, executor.Footprint()
      ensures Valid() && CacheKept() && w == given.(peeked := w.peeked) && r == ResponseOf(req, w)
      ensures IsWalk(executor.Config(), configured, req, given, old(executor.View()), run)
      ensures Routed(req, w, old(executor.View()), run, executor.View())
      ensures tenant.None? ==> limiter.client.keys == old(limiter.client.keys)
      ensures tenant.Some? ==>
                AccountFor(tenant.value)
                == Settled(MovedAll(tenant.value, limiter.windowS, old(AccountFor(tenant.value)), w.late),
                           w.later, Due(StreamEnding(w)), req.estimate)
    {
      AwaitAs(tenant, given.late);
      var peeked;
      peeked, run := OpenStream(req, given);
      var course := given.(peeked := peeked);
      w := course;
      r := Emit(tenant, req, course);
    }

    method LookUp(req: Request, now: real) returns (cached: Option<Cache.Response>, ghost seen: Seen)
      requires cache != null && cache.Valid()
      modifies cache
      ensures cache.Valid() && cache.nextId == old(cache.nextId) && seen.Seen? && cache.Contents() == seen.left
      ensures Cache.Looked(old(cache.Contents()), req.scope, Cache.Like(req.vec), now, cache.threshold,
                           seen.dropped, seen.hit, seen.left)
      ensures cached == if seen.hit.Some? then Some(seen.hit.value.response) else None
    {
      ghost var dropped, hit;
      cached, dropped, hit := cache.Get(req.scope, req.vec, now);
      seen := Seen(dropped, hit, cache.Contents());
    }

    method ReadCache(req: Request, now: real) returns (cached: Option<Cache.Response>, ghost seen: Seen)
      requires Valid()
      modifies cache
      ensures ExecutorKept() && LimiterKept() && Valid() && ReadAs(req, now, cached, seen)
    {
      if cache == null {
        return None, NotSeen;
      }
      ghost var footprint := executor.Footprint();
      assert cache !in footprint;
      cached, seen := LookUp(req, now);
      ExecutorUntouched(footprint);
    }

    method WriteCache(req: Request, w: World)
      requires (cache != null ==> cache.Valid()) && w.called.Returned?
      modifies cache
      ensures ExecutorKept() && LimiterKept() && (cache != null ==> cache.Valid())
      ensures cache != null ==>
                cache.Contents()
                == Cache.KeepLast(old(cache.Contents()) + [NewItem(req, w, old(cache.nextId))], cache.maxEntries)
    {
      if cache != null {
        cache.Set(req.scope, req.vec, w.called.value.body, w.stored);
      }
    }

    /** Settles a call that is over. */
    method Conclude(tenant: Option<Tenant>, req: Request, w: World) returns (r: Response)
      modifies limiter.client
      ensures ExecutorKept() && CacheKept()
      ensures r == CallResponse(w.called)
      ensures tenant.None? ==> limiter.client.keys == old(limiter.client.keys)
      ensures tenant.Some? ==>
                AccountFor(tenant.value)
                == Settled(old(AccountFor(tenant.value)), w.later, Due(CallEnding(w.called)), req.estimate)
    {
      match w.called
      case RaisedUpstream(code) =>
        RefundTokens(tenant, req.estimate, w.later);
        return Plain(code);
      case RaisedAllFailed(last) =>
        RefundTokens(tenant, req.estimate, w.later);
        return Plain(FailureStatus(last));
      case Returned(c, _) =>
        if tenant.Some? && c.total.Some? {
          limiter.Reconcile(tenant.value, c.total.value, req.estimate, w.later);
        }
        return Body(c.body);
    }

    method AwaitAs(tenant: Option<Tenant>, moves: seq<Move>)
      requires limiter.windowS > 0
      modifies limiter.client
      ensures ExecutorKept() && CacheKept()
      ensures tenant.None? ==> limiter.client.keys == old(limiter.client.keys)
      ensures tenant.Some? ==>
                AccountFor(tenant.value)
                == MovedAll(tenant.value, limiter.windowS, old(AccountFor(tenant.value)), moves)
    {
      if tenant.Some? {
        Await(tenant.value, moves);
      }
    }

    /** A call of the upstream after a miss. */
    method CallUpstream(tenant: Option<Tenant>, req: Request, given: World)
      returns (r: Response, called: Executor.Result<Completion>, ghost run: Executor.Run)
      requires Valid() && !req.stream && given.cached.None? && Fits(req, given)
      modifies limiter.client, executor.Footprint()
      ensures Valid() && CacheKept() && r == CallResponse(called)
      ensures IsWalk(executor.Config(), configured, req, given, old(executor.View()), run)
      ensures executor.View() == run.world && Called(req.targets, given.calls, run.verdict) == Some(called)
      ensures tenant.None? ==> limiter.client.keys == old(limiter.client.keys)
      ensures tenant.Some? ==>
                AccountFor(tenant.value)
                == Settled(MovedAll(tenant.value, limiter.windowS, old(AccountFor(tenant.value)), given.late),
                           given.later, Due(CallEnding(called)), req.estimate)
    {
      AwaitAs(tenant, given.late);
      called, run := Call(req, given);
      r := Conclude(tenant, req, given.(called := called));
    }

    /** The cache is read once the query has been embedded. */
    method EmbedAndRead(tenant: Option<Tenant>, req: Request, given: World)
      returns (cached: Option<Cache.Response>, ghost seen: Seen)
      requires Valid()
      modifies limiter.client, cache
      ensures Valid() && ExecutorKept() && ReadAs(req, given.lookedUp, cached, seen)
      ensures tenant.None? ==> limiter.client.keys == old(limiter.client.keys)
      ensures tenant.Some? ==>
                AccountFor(tenant.value)
                == MovedAll(tenant.value, limiter.windowS, old(AccountFor(tenant.value)), given.early)
    {
      AwaitAs(tenant, given.early);
      cached, seen := ReadCache(req, given.lookedUp);
    }

    /** The upstream is called after a miss, and what it answers is stored. */
    method CallAndStore(tenant: Option<Tenant>, req: Request, given: World)
      returns (r: Response, called: Executor.Result<Completion>, ghost run: Executor.Run)
      requires Valid() && !req.stream && given.cached.None? && Fits(req, given)
      modifies limiter.client, cache, executor.Footprint()
      ensures Valid() && r == CallResponse(called)
      ensures cache != null ==> cache.Contents() == Stored(req, given.(called := called), old(cache.Contents()),
                                                           old(cache.nextId))
      ensures IsWalk(executor.Config(), configured, req, given, old(executor.View()), run)
      ensures executor.View() == run.world && Called(req.targets, given.calls, run.verdict) == Some(called)
      ensures tenant.None? ==> limiter.client.keys == old(limiter.client.keys)
      ensures tenant.Some? ==>
                AccountFor(tenant.value)
                == Settled(MovedAll(tenant.value, limiter.windowS, old(AccountFor(tenant.value)), given.late),
                           given.later, Due(CallEnding(called)), req.estimate)
    {
      r, called, run := CallUpstream(tenant, req, given);
      if called.Returned? {
        WriteCache(req, given.(called := called));
      }
    }

    /** A request after admission that is not streamed. */
    method Complete(tenant: Option<Tenant>, req: Request, given: World)
      returns (r: Response, ghost w: World, ghost seen: Seen, ghost run: Executor.Run)
      requires Valid() && !req.stream && Fits(req, given)
      modifies limiter.client, cache, executor.Footprint()
      ensures Valid() && w == given.(cached := w.cached, called := w.called)
      ensures CacheUsed(req, w, seen) && r == ResponseOf(req, w)
      ensures IsWalk(executor.Config(), configured, req, given, old(executor.View()), run)
      ensures Routed(req, w, old(executor.View()), run, executor.View())
      ensures tenant.None? ==> limiter.client.keys == old(limiter.client.keys)
      ensures tenant.Some? ==>
                AccountFor(tenant.value)
                == Settled(MovedAll(tenant.value, limiter.windowS, old(AccountFor(tenant.value)), MovesOf(req, w)),
                           w.later, Due(EndingOf(req, w)), req.estimate)
    {
      var cached;
      cached, seen := EmbedAndRead(tenant, req, given);
      var course := given.(cached := cached);
      if cached.Some? {
        w, run := course, WalkFrom(executor.View(), req, given);
        RefundTokens(tenant, req.estimate, given.later);
        return Body(cached.value), w, seen, run;
      }
      var called;
      r, called, run := CallAndStore(tenant, req, course);
      w := course.(called := called);
      if tenant.Some? {
        MovedAllJoins(tenant.value, limiter.windowS, old(AccountFor(tenant.value)), given.early, given.late);
      }
    }

    /** A request after admission. */
    method Serve(tenant: Option<Tenant>, req: Request, given: World)
      returns (r: Response, ghost w: World, ghost seen: Seen, ghost run: Executor.Run)
      requires Valid() && Fits(req, given)
      modifies limiter.client, cache, executor.Footprint()
      ensures Valid() && w == given.(cached := w.cached, called := w.called, peeked := w.peeked)
      ensures CacheUsed(req, w, seen) && r == ResponseOf(req, w)
      ensures IsWalk(executor.Config(), configured, req, given, Begun(old(executor.View()), given), run)
      ensures Routed(req, w, Begun(old(executor.View()), given), run, executor.View())
      ensures tenant.None? ==> limiter.client.keys == old(limiter.client.keys)
      ensures tenant.Some? ==>
                AccountFor(tenant.value)
                == Settled(MovedAll(tenant.value, limiter.windowS, old(AccountFor(tenant.value)), MovesOf(req, w)),
                           w.later, Due(EndingOf(req, w)), req.estimate)
    {
      AwaitExecutor(given.before);
      if req.stream {
        seen := NotSeen;
        r, w, run := StreamingCompletion(tenant, req, given);
      } else {
        r, w, seen, run := Complete(tenant, req, given);
      }
    }

    /** The check of a tenant's request: Some holds what it is turned away with, None is an admission. */
    method Admit(t: Tenant, req: Request, given: World) returns (refusal: Option<Option<Response>>)
      requires limiter.windowS > 0
      modifies limiter.client
      ensures ExecutorKept() && CacheKept()
      ensures match Script(ArgsFor(t, limiter.windowS, given.now, req.estimate), given.server,
                           LiveAccount(old(AccountFor(t)), given.server))
              case Fault => refusal == Some(None) && limiter.client.keys == old(limiter.client.keys)
              case Replied(d, after) =>
                && AccountFor(t) == after
                && refusal == if d.allowed then None else Some(Some(Throttled(d.blocked, Header(d.retryAfter))))
    {
      var reply := limiter.Check(t, req.estimate, given.now, given.server);
      if reply.None? {
        return Some(None);
      }
      if !reply.value.allowed {
        return Some(Some(Throttled(reply.value.blocked, Header(reply.value.retryAfter))));
      }
      return None;
    }

    /** The request of a known tenant. None stands for the failure of a script that meets a bucket
        without a timestamp. */
    method ServeTenant(t: Tenant, req: Request, given: World)
      returns (r: Option<Response>, ghost w: World, ghost seen: Seen, ghost run: Executor.Run)
      requires Valid() && Fits(req, given)
      modifies limiter.client, cache, executor.Footprint()
      ensures Valid() && w == given.(cached := w.cached, called := w.called, peeked := w.peeked)
      ensures IsWalk(executor.Config(), configured, req, given, Begun(old(executor.View()), given), run)
      ensures var acct := old(AccountFor(t));
              match Script(ArgsFor(t, limiter.windowS, w.now, req.estimate), w.server, LiveAccount(acct, w.server))
              case Fault =>
                r == None && ExecutorKept() && CacheKept() && limiter.client.keys == old(limiter.client.keys)
              case Replied(d, after) =>
                if d.allowed then
                  && r == Some(ResponseOf(req, w)) && CacheUsed(req, w, seen)
                  && Routed(req, w, Begun(old(executor.View()), given), run, executor.View())
                  && AccountFor(t) == Settled(MovedAll(t, limiter.windowS, after, MovesOf(req, w)),
                                              w.later, Due(EndingOf(req, w)), req.estimate)
                else
                  && r == Some(Throttled(d.blocked, Header(d.retryAfter))) && ExecutorKept() && CacheKept()
                  && AccountFor(t) == after
      ensures var acct := old(AccountFor(t));
              AccountFor(t) == Replayed(t, limiter.windowS, acct, LogOf(t, limiter.windowS, acct, req, w))
    {
      w, seen, run := given, NotSeen, WalkFrom(Begun(executor.View(), given), req, given);
      var refusal := Admit(t, req, given);
      RefusalLog(t, limiter.windowS, old(AccountFor(t)), req, given);
      if refusal.Some? {
        return refusal.value, w, seen, run;
      }
      var response;
      response, w, seen, run := Serve(Some(t), req, given);
      AdmissionLog(t, limiter.windowS, old(AccountFor(t)), req, w);
      r := Some(response);
    }

    /** The whole request. Without tenants there is no admission; a request that is turned away
        before or at admission charges nothing. */
    method ChatCompletions(req: Request, given: World)
      returns (r: Option<Response>, ghost w: World, ghost seen: Seen, ghost run: Executor.Run)
      requires Valid() && Fits(req, given)
      modifies limiter.client, cache, executor.Footprint()
      ensures Valid() && w == given.(cached := w.cached, called := w.called, peeked := w.peeked)
      ensures IsWalk(executor.Config(), configured, req, given, Begun(old(executor.View()), given), run)
      ensures req.auth == BadKey ==> r == Some(Plain(401)) && ExecutorKept() && CacheKept()
      ensures req.auth != BadKey && !req.aliasKnown ==> r == Some(Plain(400)) && ExecutorKept() && CacheKept()
      ensures !req.auth.Known? || !req.aliasKnown ==> limiter.client.keys == old(limiter.client.keys)
      ensures req.auth == Off && req.aliasKnown ==>
                && r == Some(ResponseOf(req, w)) && CacheUsed(req, w, seen)
                && Routed(req, w, Begun(old(executor.View()), given), run, executor.View())
      ensures req.auth.Known? && req.aliasKnown ==>
                var t, acct := req.auth.tenant, old(AccountFor(req.auth.tenant));
                match Script(ArgsFor(t, limiter.windowS, w.now, req.estimate), w.server, LiveAccount(acct, w.server))
                case Fault =>
                  r == None && ExecutorKept() && CacheKept() && limiter.client.keys == old(limiter.client.keys)
                case Replied(d, after) =>
                  if d.allowed then
                    && r == Some(ResponseOf(req, w)) && CacheUsed(req, w, seen)
                    && Routed(req, w, Begun(old(executor.View()), given), run, executor.View())
                    && AccountFor(t) == Settled(MovedAll(t, limiter.windowS, after, MovesOf(req, w)),
                                                w.later, Due(EndingOf(req, w)), req.estimate)
                  else
                    && r == Some(Throttled(d.blocked, Header(d.retryAfter))) && ExecutorKept() && CacheKept()
                    && AccountFor(t) == after
      ensures req.auth.Known? && req.aliasKnown ==>
                var t, acct := req.auth.tenant, old(AccountFor(req.auth.tenant));
                AccountFor(t) == Replayed(t, limiter.windowS, acct, LogOf(t, limiter.windowS, acct, req, w))
    {
      w, seen, run := given, NotSeen, WalkFrom(Begun(executor.View(), given), req, given);
      if req.auth.BadKey? {
        return Some(Plain(401)), w, seen, run;
      }
      if !req.aliasKnown {
        return Some(Plain(400)), w, seen, run;
      }
      match req.auth {
        case Off =>
          var response;
          response, w, seen, run := Serve(None, req, given);
          r := Some(response);
        case Known(t) =>
          r, w, seen, run := ServeTenant(t, req, given);
      }
    }
  }

  lemma {:induction false} MovedAllJoins(t: Tenant, windowS: int, acct: Account, xs: seq<Move>, ys: seq<Move>)
    requires windowS > 0
    ensures MovedAll(t, windowS, acct, xs + ys) == MovedAll(t, windowS, MovedAll(t, windowS, acct, xs), ys)
  {
    if ys == [] {
      assert xs + ys == xs;
    } else {
      MovedAllJoins(t, windowS, acct, xs, ys[..|ys| - 1]);
      assert (xs + ys)[..|xs + ys| - 1] == xs + ys[..|ys| - 1];
    }
  }

  lemma {:induction false} OneMove(t: Tenant, windowS: int, acct: Account, m: Move)
    requires windowS > 0
    ensures MovedAll(t, windowS, acct, [m]) == Moved(t, windowS, acct, m)
  {
    assert [m][..0] == [];
  }

  lemma {:induction false} RefusalLog(t: Tenant, windowS: int, acct: Account, req: Request, w: World)
    requires windowS > 0
    ensures !Admits(t, windowS, acct, Admission(req, w)) ==>
              Replayed(t, windowS, acct, LogOf(t, windowS, acct, req, w)) == Moved(t, windowS, acct, Admission(req, w))
  {
    var m := Admission(req, w);
    OneMove(t, windowS, acct, m);
    assert Moves([Mine(m)]) == [m];
    assert [Mine(m)] + [] == [Mine(m)];
  }

  lemma {:induction false} MovedInParts(t: Tenant, windowS: int, acct: Account, m: Move, others: seq<Move>,
      closing: seq<Move>, all: seq<Move>)
    requires windowS > 0 && all == [m] + (others + closing)
    ensures MovedAll(t, windowS, acct, all)
            == MovedAll(t, windowS, MovedAll(t, windowS, Moved(t, windowS, acct, m), others), closing)
  {
    var rest := others + closing;
    MovedAllJoins(t, windowS, acct, [m], rest);
    OneMove(t, windowS, acct, m);
    MovedAllJoins(t, windowS, Moved(t, windowS, acct, m), others, closing);
  }

  lemma {:induction false} ClosingSettles(t: Tenant, windowS: int, acct: Account, req: Request, w: World,
      closing: seq<Move>)
    requires windowS > 0 && closing == Moves(Closing(req, w))
    ensures MovedAll(t, windowS, acct, closing) == Settled(acct, w.later, Due(EndingOf(req, w)), req.estimate)
  {
    if closing != [] {
      assert closing == [closing[0]];
      OneMove(t, windowS, acct, closing[0]);
    }
  }

  lemma {:induction false} LogMoves(t: Tenant, windowS: int, acct: Account, req: Request, w: World)
    returns (all: seq<Move>, closing: seq<Move>)
    requires windowS > 0 && Admits(t, windowS, acct, Admission(req, w))
    ensures all == Moves(LogOf(t, windowS, acct, req, w)) && closing == Moves(Closing(req, w))
    ensures all == [Admission(req, w)] + (MovesOf(req, w) + closing)
  {
    all, closing := Moves(LogOf(t, windowS, acct, req, w)), Moves(Closing(req, w));
    assert Moves(Others(MovesOf(req, w))) == MovesOf(req, w);
  }

  lemma {:induction false} AdmissionLog(t: Tenant, windowS: int, acct: Account, req: Request, w: World)
    requires windowS > 0
    ensures var after := Moved(t, windowS, acct, Admission(req, w));
            Admits(t, windowS, acct, Admission(req, w)) ==>
              Replayed(t, windowS, acct, LogOf(t, windowS, acct, req, w))
              == Settled(MovedAll(t, windowS, after, MovesOf(req, w)), w.later, Due(EndingOf(req, w)), req.estimate)
  {
    var m, others := Admission(req, w), MovesOf(req, w);
    if Admits(t, windowS, acct, m) {
      var all, closing := LogMoves(t, windowS, acct, req, w);
      MovedInParts(t, windowS, acct, m, others, closing, all);
      ClosingSettles(t, windowS, MovedAll(t, windowS, Moved(t, windowS, acct, m), others), req, w, closing);
    }
  }
}
