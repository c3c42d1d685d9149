/** The two fallback loops of the resilient executor (gateway/resilience/retry.py), over
    heap-allocated breakers that other requests use at the same time. Whatever happens
    while a loop awaits (time passing, other requests asking and reporting) is given as a
    sequence of moves; between awaits the loop runs alone, as on an event loop. */
module Executor {
  import opened Prelude
  import opened Breakers
  import opened Histories
  import opened Signals
  import opened Policies

  /** What any request does to the shared state, and the passing of time. */
  datatype Move =
    | Tick(dt: real)
    | Ask(provider: string)
    | Report(provider: string, ok: bool)
    | Sample(provider: string, seconds: real)

  datatype World = World(now: real, breakers: map<string, Breaker>, samples: seq<Measure>)

  datatype Settings = Settings(
    breaker: Config,
    baseDelay: real,
    maxDelay: real,
    deadline: real)

  predicate Admits(k: Settings, w: World, provider: string) {
    Admission(k.breaker, Lookup(w.breakers, provider), w.now).1
  }

  function Step(k: Settings, w: World, m: Move): World {
    match m
    case Tick(dt) => w.(now := w.now + dt)
    case Ask(p) => w.(breakers := w.breakers[p := Admission(k.breaker, Lookup(w.breakers, p), w.now).0])
    case Report(p, ok) =>
      w.(breakers := w.breakers[p := Breakers.Report(k.breaker, Lookup(w.breakers, p), ok, w.now)])
    case Sample(p, seconds) => w.(samples := w.samples + [Measure(p, seconds)])
  }

  /** The same world with the provider's breaker created. */
  function WithBreaker(w: World, p: string): World {
    w.(breakers := w.breakers[p := Lookup(w.breakers, p)])
  }

  lemma {:induction false} NewBreakerChangesNothing(k: Settings, w: World, p: string, m: Move)
    requires m == Ask(p) || (m.Report? && m.provider == p)
    ensures Step(k, WithBreaker(w, p), m) == Step(k, w, m)
    ensures Admits(k, WithBreaker(w, p), p) == Admits(k, w, p)
  {
    assert Lookup(WithBreaker(w, p).breakers, p) == Lookup(w.breakers, p);
    var seen := w.breakers[p := Lookup(w.breakers, p)];
    var after := Step(k, w, m).breakers[p];
    assert seen[p := after] == w.breakers[p := after];
  }

  function Replay(k: Settings, w: World, moves: seq<Move>): World {
    if moves == [] then w
    else Step(k, Replay(k, w, moves[..|moves| - 1]), moves[|moves| - 1])
  }

  /** The exceptions the loops catch. */
  datatype Error = Status(code: int) | TimedOut | Unreachable

  predicate IsRetryableStatus(code: int) {
    code == 429 || code >= 500
  }

  predicate Retryable(e: Error) {
    e.Status? ==> IsRetryableStatus(e.code)
  }

  datatype Reply<+R> = Responded(response: R) | Raised(error: Error)
  datatype Opening<+C> = FirstChunk(chunk: C) | NoContent | Failed(error: Error)

  /** What the environment does at one position of the target list, should the loop get to
      try it: the delay drawn, the moves made during the backoff, the upstream's answer
      and the moves made until it arrives. */
  datatype Turn<+A> = Turn(draw: real, nap: seq<Move>, answer: A, call: seq<Move>)

  datatype Cause = NotConfigured(provider: string) | CircuitOpen(provider: string) | Upstream(error: Error)

  datatype Verdict = Served(at: nat) | Surfaced(at: nat, code: int) | AllFailed(last: Option<Cause>)

  datatype Attempt = Attempt(at: nat, delay: real, napped: real, started: real, ended: real)

  datatype Run = Run(world: World, verdict: Verdict, log: seq<Event<Move>>, attempts: seq<Attempt>)

  /** One request: its targets' providers in order and its environment. An answer is None
      when the upstream served, else the error it raised. */
  datatype Job = Job(
    k: Settings,
    providers: seq<string>,
    configured: set<string>,
    turns: seq<Turn<Option<Error>>>,
    start: real)
  {
    predicate Valid() {
      |turns| == |providers|
    }

    function TryAt(i: nat, made: nat): Try
      requires Valid() && i < |providers|
    {
      Try(k, providers[i], made, turns[i])
    }
  }

  function Doubled(x: real, times: nat): real {
    if times == 0 then x else 2.0 * Doubled(x, times - 1)
  }

  /** The exponential ceiling of the backoff before the attempt that follows `attempt` others. */
  function DelayCeiling(k: Settings, attempt: nat): real
    requires attempt >= 1
  {
    Min(Doubled(k.baseDelay, attempt - 1), k.maxDelay)
  }

  /** Full jitter: whatever is drawn, the delay lies between 0 and the ceiling. */
  function Backoff(k: Settings, attempt: nat, draw: real): real
    requires attempt >= 1
  {
    Min(Max(0.0, draw), DelayCeiling(k, attempt))
  }

  /** One try of a provider by a request that has made `made` attempts before. */
  datatype Try = Try(k: Settings, provider: string, made: nat, turn: Turn<Option<Error>>)
  {
    function Delay(): real {
      if made > 0 then Backoff(k, made, turn.draw) else 0.0
    }

    /** The moves during the backoff: nothing is awaited when the delay is zero. */
    function Nap(): seq<Move> {
      if Delay() != 0.0 then turn.nap else []
    }

    function Asked(w: World): World {
      Step(k, w, Ask(provider))
    }

    function Started(w: World): World {
      Replay(k, Asked(w), Nap())
    }

    function Answered(w: World): World {
      Replay(k, Started(w), turn.call)
    }

    function Close(w: World): seq<Move> {
      Closing(provider, turn.answer, Answered(w).now - Started(w).now)
    }

    function Done(w: World): World {
      Replay(k, Answered(w), Close(w))
    }

    function Log(w: World): seq<Event<Move>> {
      [Mine(Ask(provider))] + Others(Nap()) + Others(turn.call) + Own(Close(w))
    }

    function Record(w: World, at: nat): Attempt {
      Attempt(at, Delay(), Started(w).now - w.now, Started(w).now, Answered(w).now)
    }
  }

  /** What the request itself does once the answer is in, `seconds` after the call began. */
  function Closing(p: string, answer: Option<Error>, seconds: real): seq<Move> {
    match answer
    case None => [Report(p, true), Sample(p, seconds)]
    case Some(e) => [Report(p, !Retryable(e))]
  }

  /** Where a request stands between two targets: `made` attempts so far, the last cause of
      failure, what it has logged, and its verdict once it has one. */
  datatype State = State(
    world: World,
    made: nat,
    last: Option<Cause>,
    log: seq<Event<Move>>,
    attempts: seq<Attempt>,
    verdict: Option<Verdict>)

  function Visit(job: Job, s: State, i: nat): State
    requires job.Valid() && i < |job.providers|
  {
    var p, t := job.providers[i], job.TryAt(i, s.made);
    if s.verdict.Some? then
      s
    else if s.world.now - job.start > job.k.deadline then
      s.(verdict := Some(AllFailed(s.last)))
    else if p !in job.configured then
      s.(last := Some(NotConfigured(p)))
    else if !Admits(job.k, s.world, p) then
      s.(world := t.Asked(s.world), last := Some(CircuitOpen(p)), log := s.log + [Mine(Ask(p))])
    else
      State(t.Done(s.world), s.made + 1,
            if t.turn.answer.Some? && Retryable(t.turn.answer.value) then Some(Upstream(t.turn.answer.value))
            else s.last,
            s.log + t.Log(s.world), s.attempts + [t.Record(s.world, i)],
            match t.turn.answer
            case None => Some(Served(i))
            case Some(e) => if Retryable(e) then None else Some(Surfaced(i, e.code)))
  }

  /** A request's state once the first `n` targets have had their turn. */
  function Through(job: Job, w: World, n: nat): State
    requires job.Valid() && n <= |job.providers|
  {
    if n == 0 then State(w, 0, None, [], [], None)
    else Visit(job, Through(job, w, n - 1), n - 1)
  }

  ghost predicate At(s: State, w: World, made: nat, last: Option<Cause>, verdict: Option<Verdict>) {
    s.world == w && s.made == made && s.last == last && s.verdict == verdict
  }

  function Walk(job: Job, w: World): Run
    requires job.Valid()
  {
    var s := Through(job, w, |job.providers|);
    Run(s.world, if s.verdict.Some? then s.verdict.value else AllFailed(s.last), s.log, s.attempts)
  }

  /** Once there is a verdict, later targets get no turn. */
  lemma {:induction false} VerdictIsFinal(job: Job, w: World, n: nat, m: nat)
    requires job.Valid() && n <= m <= |job.providers| && Through(job, w, n).verdict.Some?
    ensures Through(job, w, m) == Through(job, w, n)
  {
    if n < m {
      VerdictIsFinal(job, w, n, m - 1);
    }
  }

  /** The states between targets. The trigger keeps them abstract where only the states matter. */
  ghost predicate AreStates(job: Job, w: World, states: seq<State>)
    requires job.Valid()
  {
    && |states| == |job.providers| + 1
    && forall n {:trigger Through(job, w, n)} | 0 <= n < |states| :: states[n] == Through(job, w, n)
  }

  function States(job: Job, w: World): (states: seq<State>)
    requires job.Valid()
    ensures AreStates(job, w, states)
  {
    seq(|job.providers| + 1, n requires 0 <= n <= |job.providers| => Through(job, w, n))
  }

  /** A loop that has got to this state stops with this verdict. */
  ghost predicate Stops(states: seq<State>, n: nat, here: World, verdict: Verdict) {
    && n < |states| && states[n].world == here
    && (states[n].verdict == Some(verdict)
        || (n == |states| - 1 && states[n].verdict == None && verdict == AllFailed(states[n].last)))
  }

  lemma {:induction false} WalkConcludes(job: Job, w: World, states: seq<State>, n: nat, here: World, verdict: Verdict)
    requires job.Valid() && AreStates(job, w, states) && Stops(states, n, here, verdict)
    ensures Walk(job, w).world == here && Walk(job, w).verdict == verdict
  {
    assert states[n] == Through(job, w, n);
    if states[n].verdict.Some? {
      VerdictIsFinal(job, w, n, |job.providers|);
    }
  }

  function ReplyError<R>(r: Reply<R>): Option<Error> {
    match r
    case Responded(_) => None
    case Raised(e) => Some(e)
  }

  /** A stream that opens but has no content counts as a success. */
  function OpeningError<C>(o: Opening<C>): Option<Error> {
    match o
    case FirstChunk(_) => None
    case NoContent => None
    case Failed(e) => Some(e)
  }

  function Plain<A>(turns: seq<Turn<A>>, error: A -> Option<Error>): (plain: seq<Turn<Option<Error>>>)
    ensures |plain| == |turns|
  {
    seq(|turns|, i requires 0 <= i < |turns| =>
      Turn(turns[i].draw, turns[i].nap, error(turns[i].answer), turns[i].call))
  }

  lemma {:induction false} ReplayTwo(k: Settings, w: World, m: Move, m': Move)
    ensures Replay(k, w, [m]) == Step(k, w, m)
    ensures Replay(k, w, [m, m']) == Step(k, Step(k, w, m), m')
  {
    assert [m][..0] == [];
    assert [m, m'][..1] == [m];
  }

  datatype Result<+A> =
    | Returned(value: A, target: Target)
    | RaisedUpstream(code: int)
    | RaisedAllFailed(last: Option<Cause>)

  /** What a loop returns or raises, given how its walk ends. */
  function Outcome<A>(targets: seq<Target>, turns: seq<Turn<A>>, verdict: Verdict): Result<A>
    requires |turns| == |targets| && (verdict.Served? ==> verdict.at < |targets|)
  {
    match verdict
    case Served(i) => Returned(turns[i].answer, targets[i])
    case Surfaced(_, code) => RaisedUpstream(code)
    case AllFailed(last) => RaisedAllFailed(last)
  }

  function Providers(targets: seq<Target>): (ps: seq<string>)
    ensures |ps| == |targets|
  {
    seq(|targets|, i requires 0 <= i < |targets| => targets[i].provider)
  }

  class Clock {
    var now: real
  }

  class ResilientExecutor {
    const breakers: BreakerRegistry
    const signals: RoutingSignals
    const clock: Clock
    const baseDelay: real
    const maxDelay: real
    const deadline: real

    ghost predicate Valid()
      reads breakers, breakers.breakers.Values, signals
    {
      breakers.Valid() && signals.Valid()
    }

    ghost function Footprint(): set<object>
      reads breakers
    {
      {breakers, signals, clock} + breakers.breakers.Values
    }

    function Config(): Settings {
      Settings(breakers.config, baseDelay, maxDelay, deadline)
    }

    ghost function View(): World
      reads Footprint(), breakers
    {
      World(clock.now, breakers.View(), signals.samples)
    }

    constructor (breakers: BreakerRegistry, signals: RoutingSignals, clock: Clock,
                 baseDelay: real, maxDelay: real, deadline: real)
      requires breakers.Valid() && signals.Valid()
      ensures Valid() && this.breakers == breakers && this.signals == signals && this.clock == clock
      ensures Config() == Settings(breakers.config, baseDelay, maxDelay, deadline)
    {
      this.breakers, this.signals, this.clock := breakers, signals, clock;
      this.baseDelay, this.maxDelay, this.deadline := baseDelay, maxDelay, deadline;
    }

    /** The breakers of earlier lookups stay the providers' breakers. */
    twostate predicate Kept()
      reads breakers
    {
      forall n <- old(breakers.breakers) :: n in breakers.breakers && breakers.breakers[n] == old(breakers.breakers[n])
    }

    /** Looks the provider's breaker up, creating it on first use. */
    method Find(p: string) returns (b: CircuitBreaker)
      requires Valid()
      modifies breakers
      ensures Valid() && fresh(Footprint() - old(Footprint())) && Kept()
      ensures p in breakers.breakers && b == breakers.breakers[p]
      ensures View() == WithBreaker(old(View()), p)
    {
      b := breakers.Get(p);
    }

    method Enter(b: CircuitBreaker, ghost p: string) returns (admitted: bool)
      requires Valid() && p in breakers.breakers && b == breakers.breakers[p]
      modifies b
      ensures Valid() && Footprint() == old(Footprint())
      ensures admitted == Admits(Config(), old(View()), p)
      ensures View() == Step(Config(), old(View()), Ask(p))
    {
      admitted := b.Allow(clock.now);
      assert breakers.View() == old(breakers.View())[p := b.View()];
    }

    /** Records an outcome on a breaker that was looked up earlier. */
    method Leave(b: CircuitBreaker, ghost p: string, ok: bool)
      requires Valid() && p in breakers.breakers && b == breakers.breakers[p]
      modifies b
      ensures Valid() && Footprint() == old(Footprint())
      ensures View() == Step(Config(), old(View()), Report(p, ok))
    {
      if ok {
        b.RecordSuccess();
      } else {
        b.RecordFailure(clock.now);
      }
      assert breakers.View() == old(breakers.View())[p := b.View()];
    }

    /** Looks a provider's breaker up and asks it, without an await between. */
    method Admit(p: string) returns (b: CircuitBreaker, admitted: bool)
      requires Valid()
      modifies Footprint()
      ensures Valid() && fresh(Footprint() - old(Footprint())) && Kept()
      ensures p in breakers.breakers && b == breakers.breakers[p]
      ensures admitted == Admits(Config(), old(View()), p)
      ensures View() == Step(Config(), old(View()), Ask(p))
    {
      b := Find(p);
      NewBreakerChangesNothing(Config(), old(View()), p, Ask(p));
      admitted := Enter(b, p);
    }

    method ReportElsewhere(p: string, ok: bool)
      requires Valid()
      modifies Footprint()
      ensures Valid() && fresh(Footprint() - old(Footprint())) && Kept()
      ensures View() == Step(Config(), old(View()), Report(p, ok))
    {
      var b := Find(p);
      NewBreakerChangesNothing(Config(), old(View()), p, Report(p, ok));
      Leave(b, p, ok);
    }

    /** One move of another request. */
    method Elsewhere(m: Move)
      requires Valid()
      modifies Footprint()
      ensures Valid() && fresh(Footprint() - old(Footprint())) && Kept()
      ensures View() == Step(Config(), old(View()), m)
    {
      match m
      case Tick(dt) =>
        clock.now := clock.now + dt;
      case Ask(p) =>
        var b, admitted := Admit(p);
      case Report(p, ok) =>
        ReportElsewhere(p, ok);
      case Sample(p, seconds) =>
        RecordLatency(p, seconds);
    }

    method Await(moves: seq<Move>)
      requires Valid()
      modifies Footprint()
      ensures Valid() && fresh(Footprint() - old(Footprint())) && Kept()
      ensures View() == Replay(Config(), old(View()), moves)
    {
      for i := 0 to |moves|
        invariant Valid() && fresh(Footprint() - old(Footprint())) && Kept()
        invariant View() == Replay(Config(), old(View()), moves[..i])
      {
        Elsewhere(moves[i]);
        assert moves[..i + 1][..i] == moves[..i];
      }
      assert moves[..|moves|] == moves;
    }

    method RecordLatency(p: string, seconds: real)
      requires Valid()
      modifies signals
      ensures Valid() && Footprint() == old(Footprint())
      ensures View() == Step(Config(), old(View()), Sample(p, seconds))
    {
      signals.RecordLatency(p, seconds);
    }

    /** Records the outcome of a call on its breaker, and the latency of a served one. */
    method Settle(b: CircuitBreaker, t: Try, seconds: real, ghost w: World)
      requires Valid() && t.provider in breakers.breakers && b == breakers.breakers[t.provider]
      requires t.k == Config() && View() == t.Answered(w) && seconds == t.Answered(w).now - t.Started(w).now
      modifies b, signals
      ensures Valid() && Footprint() == old(Footprint())
      ensures View() == t.Done(w)
    {
      var p := t.provider;
      ghost var close := t.Close(w);
      assert close == Closing(p, t.turn.answer, seconds);
      ReplayTwo(t.k, t.Answered(w), close[0], close[|close| - 1]);
      match t.turn.answer
      case None =>
        Leave(b, p, true);
        RecordLatency(p, seconds);
      case Some(e) =>
        if Retryable(e) {
          Leave(b, p, false);
        } else {
          Leave(b, p, true);
        }
    }

    /** The awaits of one attempt: the backoff before every attempt but the first, then the call. */
    method Call(t: Try, ghost w: World) returns (attemptStart: real)
      requires Valid() && t.k == Config() && View() == t.Asked(w)
      modifies Footprint()
      ensures Valid() && fresh(Footprint() - old(Footprint())) && Kept()
      ensures attemptStart == t.Started(w).now && View() == t.Answered(w)
    {
      if t.made > 0 {
        var delay := Backoff(Config(), t.made, t.turn.draw);
        if delay != 0.0 {
          Await(t.turn.nap);
        }
      }
      attemptStart := clock.now;
      Await(t.turn.call);
    }

    /** Backoff, call and record, for a breaker that has just admitted the try. */
    method Carry(breaker: CircuitBreaker, t: Try, ghost w: World)
      requires Valid() && t.k == Config()
      requires t.provider in breakers.breakers && breaker == breakers.breakers[t.provider]
      requires View() == t.Asked(w)
      modifies Footprint()
      ensures Valid() && fresh(Footprint() - old(Footprint()))
      ensures View() == t.Done(w)
    {
      var attemptStart := Call(t, w);
      Settle(breaker, t, clock.now - attemptStart, w);
    }

    /** What one target costs the shared state: admission by its breaker and, if admitted,
        backoff, call and record. */
    method Attempt(t: Try) returns (admitted: bool)
      requires Valid() && t.k == Config()
      modifies Footprint()
      ensures Valid() && fresh(Footprint() - old(Footprint()))
      ensures admitted == Admits(t.k, old(View()), t.provider)
      ensures View() == if admitted then t.Done(old(View())) else t.Asked(old(View()))
    {
      var breaker;
      breaker, admitted := Admit(t.provider);
      if admitted {
        Carry(breaker, t, old(View()));
      }
    }

    ghost function JobFor<A>(targets: seq<Target>, configured: set<string>, turns: seq<Turn<A>>,
                             error: A -> Option<Error>, start: real): Job
    {
      Job(Config(), Providers(targets), configured, Plain(turns, error), start)
    }

    /** The body of the loop of `execute`, for the target at position `i`. */
    method VisitCall<R>(ghost job: Job, ghost w: World, ghost states: seq<State>, i: nat, provider: string,
                        configured: bool, turn: Turn<Reply<R>>, start: real, attempts: nat, lastError: Option<Cause>)
      returns (tried: bool, last: Option<Cause>, verdict: Option<Verdict>)
      requires Valid() && job.Valid() && job.k == Config() && i < |job.providers|
      requires AreStates(job, w, states) && job.start == start && At(states[i], View(), attempts, lastError, None)
      requires provider == job.providers[i] && configured == (provider in job.configured)
      requires job.turns[i] == Turn(turn.draw, turn.nap, ReplyError(turn.answer), turn.call)
      modifies Footprint()
      ensures Valid() && fresh(Footprint() - old(Footprint()))
      ensures At(states[i + 1], View(), if tried then attempts + 1 else attempts, last, verdict)
      ensures verdict.Some? && verdict.value.Served? ==> verdict.value.at == i
    {
      ghost var s := states[i];
      assert s == Through(job, w, i) && Through(job, w, i + 1) == Visit(job, s, i) == states[i + 1];
      if clock.now - start > deadline {
        return false, lastError, Some(AllFailed(lastError));
      }
      if !configured {
        return false, Some(NotConfigured(provider)), None;
      }
      var t := Try(Config(), provider, attempts, Turn(turn.draw, turn.nap, ReplyError(turn.answer), turn.call));
      assert t == job.TryAt(i, s.made);
      var admitted := Attempt(t);
      if !admitted {
        return false, Some(CircuitOpen(provider)), None;
      }
      match turn.answer
      case Raised(e) =>
        if Retryable(e) {
          return true, Some(Upstream(e)), None;
        }
        return true, lastError, Some(Surfaced(i, e.code));
      case Responded(_) =>
        return true, lastError, Some(Served(i));
    }

    /** The body of the loop of `execute_stream`, for the target at position `i`. */
    method VisitStream<C>(ghost job: Job, ghost w: World, ghost states: seq<State>, i: nat, provider: string,
                        configured: bool, turn: Turn<Opening<C>>, start: real, attempts: nat, lastError: Option<Cause>)
      returns (tried: bool, last: Option<Cause>, verdict: Option<Verdict>)
      requires Valid() && job.Valid() && job.k == Config() && i < |job.providers|
      requires AreStates(job, w, states) && job.start == start && At(states[i], View(), attempts, lastError, None)
      requires provider == job.providers[i] && configured == (provider in job.configured)
      requires job.turns[i] == Turn(turn.draw, turn.nap, OpeningError(turn.answer), turn.call)
      modifies Footprint()
      ensures Valid() && fresh(Footprint() - old(Footprint()))
      ensures At(states[i + 1], View(), if tried then attempts + 1 else attempts, last, verdict)
      ensures verdict.Some? && verdict.value.Served? ==> verdict.value.at == i
    {
      ghost var s := states[i];
      assert s == Through(job, w, i) && Through(job, w, i + 1) == Visit(job, s, i) == states[i + 1];
      if clock.now - start > deadline {
        return false, lastError, Some(AllFailed(lastError));
      }
      if !configured {
        return false, Some(NotConfigured(provider)), None;
      }
      var t := Try(Config(), provider, attempts, Turn(turn.draw, turn.nap, OpeningError(turn.answer), turn.call));
      assert t == job.TryAt(i, s.made);
      var admitted := Attempt(t);
      if !admitted {
        return false, Some(CircuitOpen(provider)), None;
      }
      match turn.answer
      case NoContent =>
        return true, lastError, Some(Served(i));
      case Failed(e) =>
        if Retryable(e) {
          return true, Some(Upstream(e)), None;
        }
        return true, lastError, Some(Surfaced(i, e.code));
      case FirstChunk(_) =>
        return true, lastError, Some(Served(i));
    }

    /** The loop of `execute`. `configured` are the providers the registry has an adapter for. */
    method TryCalls<A>(ghost job: Job, ghost w: World, ghost states: seq<State>, targets: seq<Target>,
                       configured: set<string>, turns: seq<Turn<Reply<A>>>, start: real)
      returns (verdict: Verdict, ghost n: nat)
      requires Valid() && job.Valid() && job.k == Config() && job.start == start && job.configured == configured
      requires |targets| == |turns| == |job.providers|
      requires forall i | 0 <= i < |targets| :: job.providers[i] == targets[i].provider
      requires forall i | 0 <= i < |turns| ::
                 job.turns[i] == Turn(turns[i].draw, turns[i].nap, ReplyError(turns[i].answer), turns[i].call)
      requires AreStates(job, w, states) && At(states[0], View(), 0, None, None)
      modifies Footprint()
      ensures Valid() && fresh(Footprint() - old(Footprint()))
      ensures Stops(states, n, View(), verdict) && (verdict.Served? ==> verdict.at < |targets|)
    {
      var lastError: Option<Cause> := None;
      var decided: Option<Verdict> := None;
      var attempts := 0;
      n := 0;
      for i := 0 to |targets|
        invariant Valid() && fresh(Footprint() - old(Footprint()))
        invariant n == i && decided == None
        invariant attempts >= 0 && At(states[n], View(), attempts, lastError, None)
      {
        var p, tried := targets[i].provider, false;
        tried, lastError, decided := VisitCall(job, w, states, i, p, p in configured, turns[i], start, attempts,
                                               lastError);
        attempts, n := if tried then attempts + 1 else attempts, i + 1;
        if decided.Some? {
          break;
        }
      }
      verdict := decided.GetOr(AllFailed(lastError));
    }

    /** The loop of `execute_stream`. */
    method TryStreams<A>(ghost job: Job, ghost w: World, ghost states: seq<State>, targets: seq<Target>,
                       configured: set<string>, turns: seq<Turn<Opening<A>>>, start: real)
      returns (verdict: Verdict, ghost n: nat)
      requires Valid() && job.Valid() && job.k == Config() && job.start == start && job.configured == configured
      requires |targets| == |turns| == |job.providers|
      requires forall i | 0 <= i < |targets| :: job.providers[i] == targets[i].provider
      requires forall i | 0 <= i < |turns| ::
                 job.turns[i] == Turn(turns[i].draw, turns[i].nap, OpeningError(turns[i].answer), turns[i].call)
      requires AreStates(job, w, states) && At(states[0], View(), 0, None, None)
      modifies Footprint()
      ensures Valid() && fresh(Footprint() - old(Footprint()))
      ensures Stops(states, n, View(), verdict) && (verdict.Served? ==> verdict.at < |targets|)
    {
      var lastError: Option<Cause> := None;
      var decided: Option<Verdict> := None;
      var attempts := 0;
      n := 0;
      for i := 0 to |targets|
        invariant Valid() && fresh(Footprint() - old(Footprint()))
        invariant n == i && decided == None
        invariant attempts >= 0 && At(states[n], View(), attempts, lastError, None)
      {
        var p, tried := targets[i].provider, false;
        tried, lastError, decided := VisitStream(job, w, states, i, p, p in configured, turns[i], start, attempts,
                                               lastError);
        attempts, n := if tried then attempts + 1 else attempts, i + 1;
        if decided.Some? {
          break;
        }
      }
      verdict := decided.GetOr(AllFailed(lastError));
    }

    method Execute<R>(targets: seq<Target>, configured: set<string>, turns: seq<Turn<Reply<R>>>)
      returns (result: Result<Reply<R>>)
      requires Valid() && |turns| == |targets|
      modifies Footprint()
      ensures Valid() && fresh(Footprint() - old(Footprint()))
      ensures var run := Walk(JobFor(targets, configured, turns, ReplyError, old(clock.now)), old(View()));
              && View() == run.world
              && (run.verdict.Served? ==> run.verdict.at < |targets|)
              && result == Outcome(targets, turns, run.verdict)
    {
      var start := clock.now;
      ghost var job, w := JobFor(targets, configured, turns, ReplyError, start), View();
      ghost var states := States(job, w);
      assert states[0] == Through(job, w, 0);
      var verdict, n := TryCalls(job, w, states, targets, configured, turns, start);
      WalkConcludes(job, w, states, n, View(), verdict);
      result := Outcome(targets, turns, verdict);
    }

    /** The same fallback up to the first byte; the value returned says whether there was one. */
    method ExecuteStream<C>(targets: seq<Target>, configured: set<string>, turns: seq<Turn<Opening<C>>>)
      returns (result: Result<Opening<C>>)
      requires Valid() && |turns| == |targets|
      modifies Footprint()
      ensures Valid() && fresh(Footprint() - old(Footprint()))
      ensures var run := Walk(JobFor(targets, configured, turns, OpeningError, old(clock.now)), old(View()));
              && View() == run.world
              && (run.verdict.Served? ==> run.verdict.at < |targets|)
              && result == Outcome(targets, turns, run.verdict)
    {
      var start := clock.now;
      ghost var job, w := JobFor(targets, configured, turns, OpeningError, start), View();
      ghost var states := States(job, w);
      assert states[0] == Through(job, w, 0);
      var verdict, n := TryStreams(job, w, states, targets, configured, turns, start);
      WalkConcludes(job, w, states, n, View(), verdict);
      result := Outcome(targets, turns, verdict);
    }
  }
}
