/** What the fallback loops guarantee: which target is chosen, how long it may take, and
    that any number of interleaved requests drive the breakers as BreakerRuns.dfy supposes. */
module ExecutorRuns {
  import opened Prelude
  import opened Breakers
  import opened Executor
  import opened Histories
  import opened Signals
  import BreakerRuns

  // ---------------------------------------------------------------- which target is chosen

  ghost predicate OnTime(job: Job, w: World, i: nat)
    requires job.Valid() && i <= |job.providers|
  {
    Through(job, w, i).world.now - job.start <= job.k.deadline
  }

  /** Position `i` has an adapter and its breaker, as it is when its turn comes, admits. */
  ghost predicate Tryable(job: Job, w: World, i: nat)
    requires job.Valid() && i < |job.providers|
  {
    job.providers[i] in job.configured && Admits(job.k, Through(job, w, i).world, job.providers[i])
  }

  ghost predicate PassedOver(job: Job, w: World, i: nat)
    requires job.Valid() && i < |job.providers|
  {
    OnTime(job, w, i) &&
    (Tryable(job, w, i) ==> job.turns[i].answer.Some? && Retryable(job.turns[i].answer.value))
  }

  ghost predicate AllPassedOver(job: Job, w: World, n: nat)
    requires job.Valid() && n <= |job.providers|
  {
    forall j | 0 <= j < n :: PassedOver(job, w, j)
  }

  lemma {:induction false} UndecidedIff(job: Job, w: World, n: nat)
    requires job.Valid() && n <= |job.providers|
    ensures Through(job, w, n).verdict.None? <==> AllPassedOver(job, w, n)
  {
    if n > 0 {
      UndecidedIff(job, w, n - 1);
      assert AllPassedOver(job, w, n) <==> AllPassedOver(job, w, n - 1) && PassedOver(job, w, n - 1);
    }
  }

  /** The position at which the walk ends, with the verdict reached there. */
  ghost predicate EndsAt(job: Job, w: World, i: nat)
    requires job.Valid() && i < |job.providers|
  {
    AllPassedOver(job, w, i) && !PassedOver(job, w, i)
  }

  /** What a turn decides when it does not pass the target over. */
  lemma {:induction false} TurnDecides(job: Job, s: State, i: nat)
    requires job.Valid() && i < |job.providers| && s.verdict.None?
    ensures var late, p := s.world.now - job.start > job.k.deadline, job.providers[i];
            var answer := job.turns[i].answer;
            if late then
              Visit(job, s, i).verdict == Some(AllFailed(s.last))
            else if p in job.configured && Admits(job.k, s.world, p) && !(answer.Some? && Retryable(answer.value)) then
              Visit(job, s, i).verdict == Some(if answer.None? then Served(i) else Surfaced(i, answer.value.code))
            else
              Visit(job, s, i).verdict == None
  {
  }

  lemma {:induction false} TurnEnds(job: Job, w: World, i: nat, s: State) returns (verdict: Verdict)
    requires job.Valid() && i < |job.providers| && s == Through(job, w, i) && EndsAt(job, w, i)
    ensures Through(job, w, i + 1).verdict == Some(verdict)
    ensures verdict == if !OnTime(job, w, i) then AllFailed(s.last)
                       else if job.turns[i].answer.None? then Served(i)
                       else Surfaced(i, job.turns[i].answer.value.code)
  {
    UndecidedIff(job, w, i);
    TurnDecides(job, s, i);
    verdict := Visit(job, s, i).verdict.value;
  }

  lemma {:induction false} EndingDecides(job: Job, w: World, i: nat)
    requires job.Valid() && i < |job.providers| && EndsAt(job, w, i)
    ensures Walk(job, w).verdict ==
            if !OnTime(job, w, i) then AllFailed(Through(job, w, i).last)
            else if job.turns[i].answer.None? then Served(i)
            else Surfaced(i, job.turns[i].answer.value.code)
  {
    var verdict := TurnEnds(job, w, i, Through(job, w, i));
    VerdictIsFinal(job, w, i + 1, |job.providers|);
  }

  lemma {:induction false} EndsSomewhere(job: Job, w: World, n: nat) returns (i: nat)
    requires job.Valid() && n <= |job.providers| && !AllPassedOver(job, w, n)
    ensures i < n && EndsAt(job, w, i)
  {
    if AllPassedOver(job, w, n - 1) {
      i := n - 1;
    } else {
      i := EndsSomewhere(job, w, n - 1);
    }
  }

  /** The walk serves the first target that is on time, configured, admitted at its turn and
      does not fail retryably; it stops without falling back on the first other error; and
      it fails only when every target was passed over, or the deadline cut the list short. */
  lemma {:induction false} FirstUsableIsServed(job: Job, w: World)
    requires job.Valid()
    ensures forall i: nat :: Walk(job, w).verdict == Served(i) <==>
              i < |job.providers| && AllPassedOver(job, w, i) && OnTime(job, w, i)
              && Tryable(job, w, i) && job.turns[i].answer.None?
    ensures forall i: nat, code :: Walk(job, w).verdict == Surfaced(i, code) <==>
              i < |job.providers| && AllPassedOver(job, w, i) && OnTime(job, w, i)
              && Tryable(job, w, i) && job.turns[i].answer == Some(Status(code)) && !IsRetryableStatus(code)
    ensures Walk(job, w).verdict.AllFailed? <==>
              exists m :: 0 <= m <= |job.providers| && AllPassedOver(job, w, m)
                          && (m == |job.providers| || !OnTime(job, w, m))
  {
    var n := |job.providers|;
    if AllPassedOver(job, w, n) {
      UndecidedIff(job, w, n);
      assert Walk(job, w).verdict.AllFailed?;
      forall i: nat | i < n
        ensures !(Tryable(job, w, i) && (job.turns[i].answer.None? || !Retryable(job.turns[i].answer.value)))
      {
        assert PassedOver(job, w, i);
      }
    } else {
      var e := EndsSomewhere(job, w, n);
      EndingDecides(job, w, e);
      forall i | 0 <= i < n && AllPassedOver(job, w, i) && !PassedOver(job, w, i)
        ensures i == e
      {
      }
      forall m | 0 <= m <= n && AllPassedOver(job, w, m)
        ensures m <= e
      {
      }
      forall m | 0 <= m <= n && AllPassedOver(job, w, m) && (m == n || !OnTime(job, w, m))
        ensures m == e
      {
      }
    }
  }

  predicate AttemptedAt(attempts: seq<Attempt>, i: nat) {
    exists a :: 0 <= a < |attempts| && attempts[a].at == i
  }

  lemma {:induction false} AttemptedAtLast(attempts: seq<Attempt>, last: Attempt, i: nat)
    ensures AttemptedAt(attempts + [last], i) <==> AttemptedAt(attempts, i) || last.at == i
  {
    var more := attempts + [last];
    assert forall a | 0 <= a < |attempts| :: more[a] == attempts[a];
    assert more[|attempts|] == last;
  }

  /** A turn in which the target is tried. */
  predicate Tries(job: Job, s: State, i: nat)
    requires i < |job.providers|
  {
    && s.verdict.None? && s.world.now - job.start <= job.k.deadline
    && job.providers[i] in job.configured && Admits(job.k, s.world, job.providers[i])
  }

  lemma {:induction false} TurnAttempts(job: Job, s: State, i: nat)
    requires job.Valid() && i < |job.providers|
    ensures var s' := Visit(job, s, i);
            if Tries(job, s, i) then
              s'.made == s.made + 1 && s'.attempts == s.attempts + [job.TryAt(i, s.made).Record(s.world, i)]
            else
              s'.made == s.made && s'.attempts == s.attempts
  {
  }

  predicate Increasing(s: State, n: nat) {
    && s.made == |s.attempts|
    && (forall a, b | 0 <= a < b < |s.attempts| :: s.attempts[a].at < s.attempts[b].at)
    && (forall a | 0 <= a < |s.attempts| :: s.attempts[a].at < n)
  }

  lemma {:induction false} AttemptsIncrease(job: Job, w: World, n: nat)
    requires job.Valid() && n <= |job.providers|
    ensures Increasing(Through(job, w, n), n)
  {
    var s := Through(job, w, 0);
    for i := 0 to n
      invariant s == Through(job, w, i) && Increasing(s, i)
    {
      TurnAttempts(job, s, i);
      s := Visit(job, s, i);
    }
  }

  lemma {:induction false} AttemptedAtTurn(job: Job, w: World, i: nat)
    requires job.Valid() && i < |job.providers|
    ensures AttemptedAt(Through(job, w, i + 1).attempts, i) <==>
            AllPassedOver(job, w, i) && OnTime(job, w, i) && Tryable(job, w, i)
  {
    var s := Through(job, w, i);
    TurnAttempts(job, s, i);
    UndecidedIff(job, w, i);
    AttemptsIncrease(job, w, i);
    if Tries(job, s, i) {
      AttemptedAtLast(s.attempts, job.TryAt(i, s.made).Record(s.world, i), i);
    }
  }

  lemma {:induction false} AttemptedAfterTurn(job: Job, s: State, n: nat, i: nat)
    requires job.Valid() && i < n < |job.providers|
    ensures AttemptedAt(Visit(job, s, n).attempts, i) <==> AttemptedAt(s.attempts, i)
  {
    TurnAttempts(job, s, n);
    if Tries(job, s, n) {
      AttemptedAtLast(s.attempts, job.TryAt(n, s.made).Record(s.world, n), i);
    }
  }

  /** Attempts are made at increasing positions of the target list (AttemptsIncrease), and
      exactly at the positions whose turn came and that were tryable then. */
  lemma {:induction false} AttemptedExactlyWhenTryable(job: Job, w: World, n: nat, i: nat)
    requires job.Valid() && n <= |job.providers| && i < n
    ensures AttemptedAt(Through(job, w, n).attempts, i) <==>
            AllPassedOver(job, w, i) && OnTime(job, w, i) && Tryable(job, w, i)
  {
    AttemptedAtTurn(job, w, i);
    var s := Through(job, w, i + 1);
    for m := i + 1 to n
      invariant s == Through(job, w, m)
      invariant AttemptedAt(s.attempts, i) <==> AllPassedOver(job, w, i) && OnTime(job, w, i) && Tryable(job, w, i)
    {
      AttemptedAfterTurn(job, s, m, i);
      s := Visit(job, s, m);
    }
  }

  // ---------------------------------------------------------------- elapsed time

  function Elapsed(moves: seq<Move>): real {
    if moves == [] then 0.0
    else Elapsed(moves[..|moves| - 1]) + (var m := moves[|moves| - 1]; if m.Tick? then m.dt else 0.0)
  }

  lemma {:induction false} ReplayTakes(k: Settings, w: World, moves: seq<Move>)
    ensures Replay(k, w, moves).now == w.now + Elapsed(moves)
  {
    if moves != [] {
      ReplayTakes(k, w, moves[..|moves| - 1]);
    }
  }

  lemma {:induction false} ClosingTakesNoTime(k: Settings, w: World, p: string, answer: Option<Error>, seconds: real)
    ensures Replay(k, w, Closing(p, answer, seconds)).now == w.now
  {
    var close := Closing(p, answer, seconds);
    ReplayTwo(k, w, close[0], close[|close| - 1]);
  }

  /** A backoff overruns its delay by at most `lag`; a call takes at most `limit`; time does
      not run backwards. */
  ghost predicate Timely(job: Job, w: World, lag: real, limit: real)
    requires job.Valid()
  {
    && job.k.baseDelay >= 0.0 && job.k.maxDelay >= 0.0 && job.k.deadline >= 0.0
    && lag >= 0.0 && limit >= 0.0 && job.start == w.now
    && (forall i | 0 <= i < |job.turns| :: Prompt(job.TryAt(i, Through(job, w, i).made), lag, limit))
  }

  ghost predicate Prompt(t: Try, lag: real, limit: real) {
    && 0.0 <= Elapsed(t.turn.nap) <= t.Delay() + lag
    && 0.0 <= Elapsed(t.turn.call) <= limit
  }

  lemma {:induction false} DoubledNonNegative(x: real, n: nat)
    requires x >= 0.0
    ensures Doubled(x, n) >= 0.0
  {
    if n > 0 {
      DoubledNonNegative(x, n - 1);
    }
  }

  function PowerOfTwo(n: nat): nat {
    if n == 0 then 1 else 2 * PowerOfTwo(n - 1)
  }

  lemma {:induction false} DoubledIsPower(x: real, n: nat)
    ensures Doubled(x, n) == x * PowerOfTwo(n) as real
  {
    if n > 0 {
      DoubledIsPower(x, n - 1);
      Twice(x, PowerOfTwo(n - 1));
    }
  }

  lemma {:induction false} Twice(x: real, n: nat)
    ensures 2.0 * (x * n as real) == x * (2 * n) as real
  {
  }

  /** Before attempt number `attempt + 1` the delay may be anything between 0 and the base doubled for
      every attempt but the first, capped, and nothing else. */
  lemma {:induction false} JitterIsFull(k: Settings, attempt: nat, delay: real)
    requires k.baseDelay >= 0.0 && k.maxDelay >= 0.0 && attempt >= 1
    ensures (exists draw :: Backoff(k, attempt, draw) == delay) <==>
            0.0 <= delay <= k.baseDelay * PowerOfTwo(attempt - 1) as real && delay <= k.maxDelay
  {
    DoubledIsPower(k.baseDelay, attempt - 1);
    DoubledNonNegative(k.baseDelay, attempt - 1);
    if 0.0 <= delay <= DelayCeiling(k, attempt) {
      assert Backoff(k, attempt, delay) == delay;
    }
  }

  lemma {:induction false} DelayInRange(t: Try)
    requires t.k.baseDelay >= 0.0 && t.k.maxDelay >= 0.0
    ensures 0.0 <= t.Delay() <= t.k.maxDelay
    ensures t.made > 0 ==> t.Delay() <= DelayCeiling(t.k, t.made)
    ensures t.made == 0 ==> t.Delay() == 0.0
  {
    if t.made > 0 {
      DoubledNonNegative(t.k.baseDelay, t.made - 1);
    }
  }

  lemma {:induction false} TryTakes(t: Try, w: World, lag: real, limit: real)
    requires t.k.baseDelay >= 0.0 && t.k.maxDelay >= 0.0 && lag >= 0.0
    requires Prompt(t, lag, limit)
    ensures w.now <= t.Started(w).now <= w.now + t.k.maxDelay + lag
    ensures t.Started(w).now <= t.Answered(w).now <= t.Started(w).now + limit
    ensures t.Done(w).now == t.Answered(w).now
  {
    DelayInRange(t);
    ReplayTakes(t.k, t.Asked(w), t.Nap());
    ReplayTakes(t.k, t.Started(w), t.turn.call);
    ClosingTakesNoTime(t.k, t.Answered(w), t.provider, t.turn.answer, t.Answered(w).now - t.Started(w).now);
  }

  /** The backoffs of the first `n` attempts. */
  function TotalDelay(attempts: seq<Attempt>, n: nat): real
    requires n <= |attempts|
  {
    if n == 0 then 0.0 else TotalDelay(attempts, n - 1) + attempts[n - 1].delay
  }

  /** The ceilings of the backoffs before attempts 1 to `n - 1`, added up. */
  function CeilingSum(k: Settings, n: nat): real {
    if n <= 1 then 0.0 else CeilingSum(k, n - 1) + DelayCeiling(k, n - 1)
  }

  ghost predicate InTime(job: Job, a: Attempt, lag: real, limit: real) {
    && job.start <= a.started <= job.start + job.k.deadline + job.k.maxDelay + lag
    && a.started <= a.ended <= a.started + limit
  }

  ghost predicate AllInTime(job: Job, s: State, lag: real, limit: real) {
    && job.start <= s.world.now <= job.start + job.k.deadline + job.k.maxDelay + lag + limit
    && forall a | 0 <= a < |s.attempts| :: InTime(job, s.attempts[a], lag, limit)
  }

  /** A turn either makes no attempt and takes no time, or makes the one attempt `a`. */
  predicate Extends(job: Job, s: State, s': State, a: Attempt) {
    if s'.made == s.made then
      s'.attempts == s.attempts && s'.world.now == s.world.now
    else
      && s.world.now - job.start <= job.k.deadline && s'.made == s.made + 1
      && s'.attempts == s.attempts + [a] && s'.world.now == a.ended
  }

  lemma {:induction false} VisitExtends(job: Job, s: State, i: nat)
    requires job.Valid() && i < |job.providers|
    ensures Extends(job, s, Visit(job, s, i), job.TryAt(i, s.made).Record(s.world, i))
  {
    var t := job.TryAt(i, s.made);
    ClosingTakesNoTime(t.k, t.Answered(s.world), t.provider, t.turn.answer,
                       t.Answered(s.world).now - t.Started(s.world).now);
  }

  lemma {:induction false} InTimeNext(job: Job, s: State, s': State, a: Attempt, lag: real, limit: real)
    requires AllInTime(job, s, lag, limit) && Extends(job, s, s', a)
    requires s.world.now <= a.started <= s.world.now + job.k.maxDelay + lag
    requires a.started <= a.ended <= a.started + limit
    ensures AllInTime(job, s', lag, limit)
  {
  }

  lemma {:induction false} InTimeAfterVisit(job: Job, s: State, i: nat, lag: real, limit: real)
    requires job.Valid() && i < |job.providers| && AllInTime(job, s, lag, limit)
    requires job.k.baseDelay >= 0.0 && job.k.maxDelay >= 0.0 && lag >= 0.0
    requires Prompt(job.TryAt(i, s.made), lag, limit)
    ensures AllInTime(job, Visit(job, s, i), lag, limit)
  {
    var t := job.TryAt(i, s.made);
    TryTakes(t, s.world, lag, limit);
    VisitExtends(job, s, i);
    InTimeNext(job, s, Visit(job, s, i), t.Record(s.world, i), lag, limit);
  }

  /** Every attempt starts within the deadline plus one backoff of the request's start, and
      takes at most one call. */
  lemma {:induction false} ElapsedTimeBound(job: Job, w: World, lag: real, limit: real, n: nat)
    requires job.Valid() && Timely(job, w, lag, limit) && n <= |job.providers|
    ensures AllInTime(job, Through(job, w, n), lag, limit)
  {
    var s := Through(job, w, 0);
    for i := 0 to n
      invariant s == Through(job, w, i) && AllInTime(job, s, lag, limit)
    {
      InTimeAfterVisit(job, s, i, lag, limit);
      s := Visit(job, s, i);
    }
  }

  /** Every backoff is within its ceiling, and there is none before the first attempt. */
  predicate DelaysInRange(k: Settings, s: State) {
    && s.made == |s.attempts|
    && forall a | 0 <= a < |s.attempts| :: s.attempts[a].delay <= if a > 0 then DelayCeiling(k, a) else 0.0
  }

  lemma {:induction false} DelaysNext(job: Job, s: State, s': State, a: Attempt)
    requires DelaysInRange(job.k, s) && Extends(job, s, s', a)
    requires if s.made > 0 then a.delay <= DelayCeiling(job.k, s.made) else a.delay == 0.0
    ensures DelaysInRange(job.k, s')
  {
  }

  lemma {:induction false} DelaysAfterVisit(job: Job, s: State, i: nat)
    requires job.Valid() && i < |job.providers| && job.k.baseDelay >= 0.0 && job.k.maxDelay >= 0.0
    requires DelaysInRange(job.k, s)
    ensures DelaysInRange(job.k, Visit(job, s, i))
  {
    DelayInRange(job.TryAt(i, s.made));
    VisitExtends(job, s, i);
    DelaysNext(job, s, Visit(job, s, i), job.TryAt(i, s.made).Record(s.world, i));
  }

  lemma {:induction false} AlwaysInRange(job: Job, w: World, n: nat)
    requires job.Valid() && n <= |job.providers| && job.k.baseDelay >= 0.0 && job.k.maxDelay >= 0.0
    ensures DelaysInRange(job.k, Through(job, w, n))
  {
    var s := Through(job, w, 0);
    for i := 0 to n
      invariant s == Through(job, w, i) && DelaysInRange(job.k, s)
    {
      DelaysAfterVisit(job, s, i);
      s := Visit(job, s, i);
    }
  }

  lemma {:induction false} SumInRange(k: Settings, s: State, n: nat)
    requires DelaysInRange(k, s) && n <= |s.attempts|
    ensures TotalDelay(s.attempts, n) <= CeilingSum(k, n)
  {
    if n > 0 {
      SumInRange(k, s, n - 1);
    }
  }

  /** The backoffs of the first attempts add up to at most the sum of their ceilings. */
  lemma {:induction false} DelaysOfPrefix(job: Job, w: World, n: nat, a: nat)
    requires job.Valid() && n <= |job.providers| && job.k.baseDelay >= 0.0 && job.k.maxDelay >= 0.0
    requires a <= |Through(job, w, n).attempts|
    ensures TotalDelay(Through(job, w, n).attempts, a) <= CeilingSum(job.k, a)
  {
    AlwaysInRange(job, w, n);
    SumInRange(job.k, Through(job, w, n), a);
  }

  lemma {:induction false} WholeCallBound(job: Job, w: World, lag: real, limit: real)
    requires job.Valid() && Timely(job, w, lag, limit)
    ensures var run := Walk(job, w);
            var last := job.start + job.k.deadline + job.k.maxDelay + lag;
            && run.world.now <= last + limit
            && (forall a | 0 <= a < |run.attempts| :: InTime(job, run.attempts[a], lag, limit))
            && (forall a | 0 <= a <= |run.attempts| :: TotalDelay(run.attempts, a) <= CeilingSum(job.k, a))
  {
    ElapsedTimeBound(job, w, lag, limit, |job.providers|);
    forall a | 0 <= a <= |Walk(job, w).attempts|
      ensures TotalDelay(Walk(job, w).attempts, a) <= CeilingSum(job.k, a)
    {
      DelaysOfPrefix(job, w, |job.providers|, a);
    }
  }

  // ---------------------------------------------------------------- one record per admitted call

  function Now(k: Settings, w: World, log: seq<Event<Move>>): World {
    Replay(k, w, Moves(log))
  }

  /** The provider whose breaker has admitted the request and awaits its report. */
  function Held(k: Settings, w: World, log: seq<Event<Move>>): Option<string> {
    if log == [] then None
    else
      var before := log[..|log| - 1];
      match log[|log| - 1]
      case Mine(Ask(p)) => if Admits(k, Now(k, w, before), p) then Some(p) else None
      case Mine(Report(_, _)) => None
      case _ => Held(k, w, before)
  }

  /** The discipline of one request: it asks only when it holds nothing, reports only to the
      breaker it holds, and does not move the clock. */
  predicate Obeys(k: Settings, w: World, log: seq<Event<Move>>) {
    log == [] ||
    var before := log[..|log| - 1];
    && Obeys(k, w, before)
    && match log[|log| - 1]
       case Mine(Tick(_)) => false
       case Mine(Ask(_)) => Held(k, w, before) == None
       case Mine(Report(p, _)) => Held(k, w, before) == Some(p)
       case _ => true
  }

  lemma {:induction false} ReplayAppend(k: Settings, w: World, xs: seq<Move>, ys: seq<Move>)
    ensures Replay(k, w, xs + ys) == Replay(k, Replay(k, w, xs), ys)
  {
    if ys == [] {
      assert xs + ys == xs;
    } else {
      assert (xs + ys)[..|xs + ys| - 1] == xs + ys[..|ys| - 1];
      ReplayAppend(k, w, xs, ys[..|ys| - 1]);
    }
  }

  lemma {:induction false} NowAppend(k: Settings, w: World, xs: seq<Event<Move>>, ys: seq<Event<Move>>)
    ensures Now(k, w, xs + ys) == Now(k, Now(k, w, xs), ys)
  {
    assert Moves(xs + ys) == Moves(xs) + Moves(ys);
    ReplayAppend(k, w, Moves(xs), Moves(ys));
  }

  /** While others move, a request keeps what it holds and stays disciplined. */
  lemma {:induction false} OthersKeepHold(k: Settings, w: World, log: seq<Event<Move>>, others: seq<Event<Move>>)
    requires Obeys(k, w, log) && forall i | 0 <= i < |others| :: others[i].Theirs?
    ensures Obeys(k, w, log + others) && Held(k, w, log + others) == Held(k, w, log)
  {
    if others == [] {
      assert log + others == log;
    } else {
      var rest := others[..|others| - 1];
      OthersKeepHold(k, w, log, rest);
      assert (log + others)[..|log + others| - 1] == log + rest;
    }
  }

  lemma {:induction false} OwnEvent(k: Settings, w: World, log: seq<Event<Move>>, e: Event<Move>)
    ensures (log + [e])[..|log + [e]| - 1] == log && (log + [e])[|log + [e]| - 1] == e
  {
  }

  lemma {:induction false} AskObeys(k: Settings, w: World, log: seq<Event<Move>>, p: string)
    requires Obeys(k, w, log) && Held(k, w, log) == None
    ensures Obeys(k, w, log + [Mine(Ask(p))])
    ensures Held(k, w, log + [Mine(Ask(p))]) == if Admits(k, Now(k, w, log), p) then Some(p) else None
  {
    OwnEvent(k, w, log, Mine(Ask(p)));
  }

  lemma {:induction false} ClosingObeys(k: Settings, w: World, log: seq<Event<Move>>, p: string, answer: Option<Error>,
      seconds: real)
    requires Obeys(k, w, log) && Held(k, w, log) == Some(p)
    ensures var closed := log + Own(Closing(p, answer, seconds));
            Obeys(k, w, closed) && Held(k, w, closed) == None
  {
    var close := Own(Closing(p, answer, seconds));
    var reported := log + [close[0]];
    OwnEvent(k, w, log, close[0]);
    if |close| == 2 {
      OwnEvent(k, w, reported, close[1]);
      assert log + close == reported + [close[1]];
    } else {
      assert log + close == reported;
    }
  }

  lemma {:induction false} CallObeys(k: Settings, w: World, log: seq<Event<Move>>, p: string, waits: seq<Event<Move>>,
                  answer: Option<Error>, seconds: real)
    requires Obeys(k, w, log) && Held(k, w, log) == None && Admits(k, Now(k, w, log), p)
    requires forall i | 0 <= i < |waits| :: waits[i].Theirs?
    ensures var after := log + [Mine(Ask(p))] + waits + Own(Closing(p, answer, seconds));
            Obeys(k, w, after) && Held(k, w, after) == None
  {
    AskObeys(k, w, log, p);
    OthersKeepHold(k, w, log + [Mine(Ask(p))], waits);
    ClosingObeys(k, w, log + [Mine(Ask(p))] + waits, p, answer, seconds);
  }

  lemma {:induction false} FiveParts(log: seq<Event<Move>>, ask: seq<Event<Move>>, nap: seq<Event<Move>>,
      call: seq<Event<Move>>, close: seq<Event<Move>>)
    ensures log + (ask + nap + call + close) == log + ask + (nap + call) + close
  {
  }

  /** One try, from the ask to the record, is disciplined and ends holding nothing. */
  lemma {:induction false} TryObeys(t: Try, w: World, before: World, log: seq<Event<Move>>)
    requires Obeys(t.k, before, log) && Held(t.k, before, log) == None
    requires Now(t.k, before, log) == w && Admits(t.k, w, t.provider)
    ensures Obeys(t.k, before, log + t.Log(w)) && Held(t.k, before, log + t.Log(w)) == None
  {
    var ask, nap, call, close := [Mine(Ask(t.provider))], Others(t.Nap()), Others(t.turn.call), Own(t.Close(w));
    CallObeys(t.k, before, log, t.provider, nap + call, t.turn.answer, t.Answered(w).now - t.Started(w).now);
    FiveParts(log, ask, nap, call, close);
  }

  lemma {:induction false} ReplayFour(k: Settings, w: World, m: Move, xs: seq<Move>, ys: seq<Move>, zs: seq<Move>)
    ensures Replay(k, w, [m] + xs + ys + zs) == Replay(k, Replay(k, Replay(k, Step(k, w, m), xs), ys), zs)
  {
    ReplayAppend(k, w, [m] + xs + ys, zs);
    ReplayAppend(k, w, [m] + xs, ys);
    ReplayAppend(k, w, [m], xs);
    ReplayTwo(k, w, m, m);
  }

  /** A try's log and the moves in it. */
  lemma {:induction false} TryMoves(t: Try, w: World) returns (log: seq<Event<Move>>, moves: seq<Move>)
    ensures log == t.Log(w) && moves == Moves(log)
    ensures moves == [Ask(t.provider)] + t.Nap() + t.turn.call + t.Close(w)
  {
    log := t.Log(w);
    moves := Moves(log);
  }

  lemma {:induction false} TryNow(t: Try, w: World, before: World, log: seq<Event<Move>>)
    requires Now(t.k, before, log) == w
    ensures Now(t.k, before, log + t.Log(w)) == t.Done(w)
  {
    var tried, moves := TryMoves(t, w);
    NowAppend(t.k, before, log, tried);
    ReplayFour(t.k, w, Ask(t.provider), t.Nap(), t.turn.call, t.Close(w));
  }

  ghost predicate LogObeys(job: Job, w: World, s: State) {
    Now(job.k, w, s.log) == s.world && Obeys(job.k, w, s.log) && Held(job.k, w, s.log) == None
  }

  lemma {:induction false} RefusalObeys(job: Job, w: World, s: State, p: string)
    requires LogObeys(job, w, s) && !Admits(job.k, s.world, p)
    ensures var log := s.log + [Mine(Ask(p))];
            && Obeys(job.k, w, log) && Held(job.k, w, log) == None
            && Now(job.k, w, log) == Step(job.k, s.world, Ask(p))
  {
    AskObeys(job.k, w, s.log, p);
    NowAppend(job.k, w, s.log, [Mine(Ask(p))]);
    assert Moves([Mine(Ask(p))]) == [Ask(p)];
    ReplayTwo(job.k, s.world, Ask(p), Ask(p));
  }

  lemma {:induction false} ObeysAfterVisit(job: Job, w: World, s: State, i: nat)
    requires job.Valid() && i < |job.providers| && LogObeys(job, w, s)
    ensures LogObeys(job, w, Visit(job, s, i))
  {
    var t := job.TryAt(i, s.made);
    if s.verdict.None? && s.world.now - job.start <= job.k.deadline && t.provider in job.configured {
      if Admits(job.k, s.world, t.provider) {
        TryObeys(t, s.world, w, s.log);
        TryNow(t, s.world, w, s.log);
      } else {
        RefusalObeys(job, w, s, t.provider);
      }
    }
  }

  /** The world a request leaves is its log replayed; every admitted call is reported exactly
      once, to the breaker that admitted it, before the request asks again or ends. */
  lemma {:induction false} WalkObeys(job: Job, w: World, n: nat)
    requires job.Valid() && n <= |job.providers|
    ensures LogObeys(job, w, Through(job, w, n))
  {
    var s := Through(job, w, 0);
    for i := 0 to n
      invariant s == Through(job, w, i) && LogObeys(job, w, s)
    {
      ObeysAfterVisit(job, w, s, i);
      s := Visit(job, s, i);
    }
  }

  // ---------------------------------------------------------------- requests that attempt nothing

  /** Position `i` cannot be tried in the world `w`: no adapter, or its breaker refuses. */
  predicate Unusable(job: Job, w: World, i: nat)
    requires i < |job.providers|
  {
    job.providers[i] in job.configured ==> !Admits(job.k, w, job.providers[i])
  }

  /** A refused ask changes no breaker's answer at the same moment, not even its own. */
  lemma {:induction false} RefusalChangesNoAnswer(k: Settings, w: World, p: string, q: string)
    requires !Admits(k, w, p)
    ensures Admits(k, Step(k, w, Ask(p)), q) == Admits(k, w, q)
  {
  }

  lemma {:induction false} NothingTried(job: Job, w: World, n: nat)
    requires job.Valid() && n <= |job.providers| && w.now - job.start <= job.k.deadline
    requires forall i | 0 <= i < n :: Unusable(job, w, i)
    ensures var s := Through(job, w, n);
            && s.attempts == [] && s.verdict.None? && s.world.now == w.now
            && forall q :: Admits(job.k, s.world, q) == Admits(job.k, w, q)
  {
    if n > 0 {
      NothingTried(job, w, n - 1);
      var s, p := Through(job, w, n - 1), job.providers[n - 1];
      assert Unusable(job, w, n - 1);
      if p in job.configured {
        forall q
          ensures Admits(job.k, Step(job.k, s.world, Ask(p)), q) == Admits(job.k, w, q)
        {
          RefusalChangesNoAnswer(job.k, s.world, p, q);
        }
      }
    }
  }

  lemma {:induction false} AttemptsStay(job: Job, w: World, n: nat, m: nat)
    requires job.Valid() && n <= m <= |job.providers|
    ensures |Through(job, w, n).attempts| <= |Through(job, w, m).attempts|
  {
    if n < m {
      AttemptsStay(job, w, n, m - 1);
    }
  }

  lemma {:induction false} FirstUsable(job: Job, w: World, n: nat) returns (i: nat)
    requires job.Valid() && n <= |job.providers| && exists i :: 0 <= i < n && !Unusable(job, w, i)
    ensures i < n && !Unusable(job, w, i) && forall j | 0 <= j < i :: Unusable(job, w, j)
  {
    if exists j :: 0 <= j < n - 1 && !Unusable(job, w, j) {
      i := FirstUsable(job, w, n - 1);
    } else {
      i := n - 1;
    }
  }

  /** A request makes no upstream attempt exactly when it starts past its deadline, or no provider
      of its list that is configured would be admitted when it starts. */
  lemma {:induction false} NoAttemptIff(job: Job, w: World)
    requires job.Valid()
    ensures Walk(job, w).attempts == [] <==>
            w.now - job.start > job.k.deadline || forall i | 0 <= i < |job.providers| :: Unusable(job, w, i)
    ensures Walk(job, w).attempts == [] ==> Walk(job, w).verdict.AllFailed?
  {
    var n := |job.providers|;
    if w.now - job.start > job.k.deadline {
      if n > 0 {
        assert Through(job, w, 1) == Visit(job, Through(job, w, 0), 0);
        VerdictIsFinal(job, w, 1, n);
      }
    } else if forall i | 0 <= i < n :: Unusable(job, w, i) {
      NothingTried(job, w, n);
    } else {
      var i := FirstUsable(job, w, n);
      NothingTried(job, w, i);
      assert Through(job, w, i + 1) == Visit(job, Through(job, w, i), i);
      AttemptsStay(job, w, i + 1, n);
    }
  }

  // ---------------------------------------------------------------- latency samples

  function OwnSamples(log: seq<Event<Move>>): seq<Move> {
    if log == [] then []
    else
      OwnSamples(log[..|log| - 1]) +
      match log[|log| - 1]
      case Mine(Sample(p, seconds)) => [Sample(p, seconds)]
      case _ => []
  }

  lemma {:induction false} OwnSamplesAppend(xs: seq<Event<Move>>, ys: seq<Event<Move>>)
    ensures OwnSamples(xs + ys) == OwnSamples(xs) + OwnSamples(ys)
  {
    if ys == [] {
      assert xs + ys == xs;
    } else {
      assert (xs + ys)[..|xs + ys| - 1] == xs + ys[..|ys| - 1];
      OwnSamplesAppend(xs, ys[..|ys| - 1]);
    }
  }

  lemma {:induction false} OthersSampleNothing(log: seq<Event<Move>>)
    requires forall i | 0 <= i < |log| :: log[i].Theirs? || log[i].move.Ask?
    ensures OwnSamples(log) == []
  {
    if log != [] {
      OthersSampleNothing(log[..|log| - 1]);
    }
  }

  /** Of a log that waits and then closes a call, the samples are those of the close. */
  lemma {:induction false} CloseSamples(waits: seq<Event<Move>>, p: string, answer: Option<Error>, seconds: real,
      log: seq<Event<Move>>)
    returns (own: seq<Move>)
    requires forall i | 0 <= i < |waits| :: waits[i].Theirs? || waits[i].move.Ask?
    requires log == waits + Own(Closing(p, answer, seconds))
    ensures own == OwnSamples(log)
    ensures own == if answer.None? then [Sample(p, seconds)] else []
  {
    var close := Own(Closing(p, answer, seconds));
    OthersSampleNothing(waits);
    OwnSamplesAppend(waits, close);
    OwnSamplesAppend([close[0]], close[1..]);
    assert close == [close[0]] + close[1..];
    assert [close[0]][..0] == [] && close[1..][..0] == [];
    own := if answer.None? then [Sample(p, seconds)] else [];
  }

  /** The request's own samples are that of its last attempt if that served it, and none otherwise. */
  predicate SampledAs(job: Job, s: State, samples: seq<Move>) {
    if s.verdict.Some? && s.verdict.value.Served? then
      && s.attempts != []
      && var last := s.attempts[|s.attempts| - 1];
         && last.at == s.verdict.value.at < |job.providers|
         && samples == [Sample(job.providers[last.at], last.ended - last.started)]
    else
      samples == []
  }

  ghost predicate ServedIsSampled(job: Job, s: State) {
    SampledAs(job, s, OwnSamples(s.log))
  }

  /** How a turn changes the log: not at all, by a refused ask, or by a try. */
  ghost predicate Logs(job: Job, s: State, s': State, t: Try, i: nat) {
    if s'.made == s.made then
      && s'.attempts == s.attempts && (s'.verdict == s.verdict || s'.verdict == Some(AllFailed(s.last)))
      && (s.verdict.Some? ==> s' == s)
      && (s'.log == s.log || s'.log == s.log + [Mine(Ask(t.provider))])
    else
      && s.verdict.None? && s'.log == s.log + t.Log(s.world)
      && s'.attempts == s.attempts + [t.Record(s.world, i)]
      && (if t.turn.answer.None? then s'.verdict == Some(Served(i))
          else s'.verdict.None? || s'.verdict.value.Surfaced?)
  }

  lemma {:induction false} VisitLogs(job: Job, s: State, i: nat)
    requires job.Valid() && i < |job.providers|
    ensures Logs(job, s, Visit(job, s, i), job.TryAt(i, s.made), i)
  {
  }

  /** A try with these samples of its own, recorded as `a`, is sampled if it is answered. */
  lemma {:induction false} SampledByTry(job: Job, s: State, s': State, i: nat, before: seq<Move>, own: seq<Move>,
      a: Attempt, served: bool)
    requires SampledAs(job, s, before) && s.verdict.None? && i < |job.providers| && a.at == i
    requires own == if served then [Sample(job.providers[i], a.ended - a.started)] else []
    requires s'.attempts == s.attempts + [a]
    requires if served then s'.verdict == Some(Served(i)) else s'.verdict.None? || s'.verdict.value.Surfaced?
    ensures SampledAs(job, s', before + own)
  {
  }

  lemma {:induction false} SamplesJoin(before: seq<Event<Move>>, log: seq<Event<Move>>, after: seq<Event<Move>>)
    returns (xs: seq<Move>, ys: seq<Move>)
    requires after == before + log
    ensures xs == OwnSamples(before) && ys == OwnSamples(log) && OwnSamples(after) == xs + ys
  {
    OwnSamplesAppend(before, log);
    xs, ys := OwnSamples(before), OwnSamples(log);
  }

  /** A try's log: it asks and waits, and then closes the call. */
  lemma {:induction false} TryCloses(t: Try, w: World, seconds: real)
    returns (log: seq<Event<Move>>, waits: seq<Event<Move>>)
    requires seconds == t.Answered(w).now - t.Started(w).now
    ensures log == t.Log(w) && log == waits + Own(Closing(t.provider, t.turn.answer, seconds))
    ensures forall i | 0 <= i < |waits| :: waits[i].Theirs? || waits[i].move.Ask?
  {
    waits := [Mine(Ask(t.provider))] + Others(t.Nap()) + Others(t.turn.call);
    log := t.Log(w);
  }

  /** A try's log, its record and its samples. */
  lemma {:induction false} TryLeaves(t: Try, w: World, i: nat)
    returns (log: seq<Event<Move>>, a: Attempt, own: seq<Move>)
    ensures log == t.Log(w) && a == t.Record(w, i) && a.at == i && own == OwnSamples(log)
    ensures own == if t.turn.answer.None? then [Sample(t.provider, a.ended - a.started)] else []
  {
    a := t.Record(w, i);
    var waits;
    log, waits := TryCloses(t, w, a.ended - a.started);
    own := CloseSamples(waits, t.provider, t.turn.answer, a.ended - a.started, log);
  }

  lemma {:induction false} SampledNext(job: Job, s: State, s': State, t: Try, i: nat)
    requires job.Valid() && i < |job.providers| && t == job.TryAt(i, s.made)
    requires ServedIsSampled(job, s) && Logs(job, s, s', t, i)
    ensures ServedIsSampled(job, s')
  {
    if s'.made != s.made {
      var log, a, own := TryLeaves(t, s.world, i);
      var xs, ys := SamplesJoin(s.log, log, s'.log);
      SampledByTry(job, s, s', i, xs, own, a, t.turn.answer.None?);
    } else if s'.log != s.log {
      OthersSampleNothing([Mine(Ask(t.provider))]);
      var xs, ys := SamplesJoin(s.log, [Mine(Ask(t.provider))], s'.log);
    }
  }

  lemma {:induction false} SampledAfterVisit(job: Job, s: State, i: nat)
    requires job.Valid() && i < |job.providers| && ServedIsSampled(job, s)
    ensures ServedIsSampled(job, Visit(job, s, i))
  {
    VisitLogs(job, s, i);
    SampledNext(job, s, Visit(job, s, i), job.TryAt(i, s.made), i);
  }

  /** A request writes one latency sample if it is served, that of the call that served it,
      and none otherwise. */
  lemma {:induction false} OnlyServedIsSampled(job: Job, w: World, n: nat)
    requires job.Valid() && n <= |job.providers|
    ensures ServedIsSampled(job, Through(job, w, n))
  {
    var s := Through(job, w, 0);
    for i := 0 to n
      invariant s == Through(job, w, i) && ServedIsSampled(job, s)
    {
      SampledAfterVisit(job, s, i);
      s := Visit(job, s, i);
    }
  }

  // ---------------------------------------------------------------- why nothing served

  /** Why the target at position `i` was passed over. */
  lemma {:induction false} LastCause(job: Job, w: World, n: nat)
    requires job.Valid() && n <= |job.providers| && AllPassedOver(job, w, n)
    ensures var last := Through(job, w, n).last;
            if n == 0 then last == None
            else
              var p, answer := job.providers[n - 1], job.turns[n - 1].answer;
              if p !in job.configured then last == Some(NotConfigured(p))
              else if !Admits(job.k, Through(job, w, n - 1).world, p) then last == Some(CircuitOpen(p))
              else answer.Some? && last == Some(Upstream(answer.value))
  {
    if n > 0 {
      assert PassedOver(job, w, n - 1);
      assert AllPassedOver(job, w, n - 1);
      UndecidedIff(job, w, n - 1);
      CauseOfTurn(job, Through(job, w, n - 1), n - 1);
    }
  }

  lemma {:induction false} CauseOfTurn(job: Job, s: State, i: nat)
    requires job.Valid() && i < |job.providers| && s.verdict.None? && s.world.now - job.start <= job.k.deadline
    ensures var last, p, answer := Visit(job, s, i).last, job.providers[i], job.turns[i].answer;
            if p !in job.configured then last == Some(NotConfigured(p))
            else if !Admits(job.k, s.world, p) then last == Some(CircuitOpen(p))
            else if answer.Some? && Retryable(answer.value) then last == Some(Upstream(answer.value))
            else last == s.last
  {
  }

  /** A walk that serves nobody and surfaces nothing ends with the last target's cause; it got past all
      targets, or ran out of time before target `m`. */
  lemma {:induction false} FailsWithLastCause(job: Job, w: World) returns (m: nat)
    requires job.Valid() && Walk(job, w).verdict.AllFailed?
    ensures m <= |job.providers| && AllPassedOver(job, w, m) && (m == |job.providers| || !OnTime(job, w, m))
    ensures Walk(job, w).verdict.last == Through(job, w, m).last
  {
    var n := |job.providers|;
    if AllPassedOver(job, w, n) {
      m := n;
      UndecidedIff(job, w, n);
    } else {
      m := EndsSomewhere(job, w, n);
      EndingDecides(job, w, m);
    }
  }

  // ---------------------------------------------------------------- what is reported

  /** An upstream failed: it could not be reached in time or at all, or it answered with too many
      requests or a server error. */
  predicate Fails(answer: Option<Error>) {
    match answer
    case None => false
    case Some(TimedOut) => true
    case Some(Unreachable) => true
    case Some(Status(code)) => code == 429 || code >= 500
  }

  /** The reports that the request itself made among the first `n` moves. */
  function OwnReports(log: seq<Event<Move>>, n: nat): seq<Move>
    requires n <= |log|
  {
    if n == 0 then []
    else OwnReports(log, n - 1) + if log[n - 1].Mine? && log[n - 1].move.Report? then [log[n - 1].move] else []
  }

  lemma {:induction false} ReportsOfFirst(xs: seq<Event<Move>>, ys: seq<Event<Move>>, n: nat)
    requires n <= |xs|
    ensures OwnReports(xs + ys, n) == OwnReports(xs, n)
  {
    if n > 0 {
      ReportsOfFirst(xs, ys, n - 1);
    }
  }

  lemma {:induction false} ReportsOfBoth(xs: seq<Event<Move>>, ys: seq<Event<Move>>, n: nat) returns (all: seq<Move>)
    requires n <= |ys|
    ensures all == OwnReports(xs + ys, |xs| + n) == OwnReports(xs, |xs|) + OwnReports(ys, n)
  {
    if n == 0 {
      ReportsOfFirst(xs, ys, |xs|);
      all := OwnReports(xs, |xs|);
    } else {
      var before := ReportsOfBoth(xs, ys, n - 1);
      assert (xs + ys)[|xs| + n - 1] == ys[n - 1];
      all := before + if ys[n - 1].Mine? && ys[n - 1].move.Report? then [ys[n - 1].move] else [];
    }
  }

  lemma {:induction false} WaitsReportNothing(log: seq<Event<Move>>, n: nat)
    requires n <= |log| && forall i | 0 <= i < |log| :: log[i].Theirs? || log[i].move.Ask?
    ensures OwnReports(log, n) == []
  {
    if n > 0 {
      WaitsReportNothing(log, n - 1);
    }
  }

  lemma {:induction false} CloseReports(waits: seq<Event<Move>>, p: string, answer: Option<Error>, seconds: real,
      log: seq<Event<Move>>)
    requires forall i | 0 <= i < |waits| :: waits[i].Theirs? || waits[i].move.Ask?
    requires log == waits + Own(Closing(p, answer, seconds))
    ensures OwnReports(log, |log|) == [Report(p, !Fails(answer))]
  {
    var close := Own(Closing(p, answer, seconds));
    WaitsReportNothing(waits, |waits|);
    var all := ReportsOfBoth(waits, close, |close|);
    assert OwnReports(close, 1) == OwnReports(close, 0) + [Report(p, !Fails(answer))];
  }

  /** One report per attempt, in order, to the breaker of its target: a failure exactly if the upstream
      failed. */
  predicate ReportsMatch(job: Job, reports: seq<Move>, attempts: seq<Attempt>)
    requires job.Valid()
  {
    && |reports| == |attempts|
    && forall a | 0 <= a < |attempts| ::
         && attempts[a].at < |job.providers|
         && reports[a] == Report(job.providers[attempts[a].at], !Fails(job.turns[attempts[a].at].answer))
  }

  lemma {:induction false} JoinReports(before: seq<Event<Move>>, log: seq<Event<Move>>, after: seq<Event<Move>>)
    returns (xs: seq<Move>, ys: seq<Move>, all: seq<Move>)
    requires after == before + log
    ensures xs == OwnReports(before, |before|) && ys == OwnReports(log, |log|)
    ensures all == OwnReports(after, |after|) == xs + ys
  {
    xs, ys := OwnReports(before, |before|), OwnReports(log, |log|);
    all := ReportsOfBoth(before, log, |log|);
  }

  lemma {:induction false} TryReports(t: Try, w: World, i: nat) returns (log: seq<Event<Move>>, a: Attempt)
    ensures log == t.Log(w) && a == t.Record(w, i) && a.at == i
    ensures OwnReports(log, |log|) == [Report(t.provider, !Fails(t.turn.answer))]
  {
    a := t.Record(w, i);
    var waits;
    log, waits := TryCloses(t, w, a.ended - a.started);
    CloseReports(waits, t.provider, t.turn.answer, a.ended - a.started, log);
  }

  lemma {:induction false} MatchNext(job: Job, reports: seq<Move>, attempts: seq<Attempt>, a: Attempt)
    requires job.Valid() && ReportsMatch(job, reports, attempts) && a.at < |job.providers|
    ensures ReportsMatch(job, reports + [Report(job.providers[a.at], !Fails(job.turns[a.at].answer))], attempts + [a])
  {
  }

  lemma {:induction false} ReportsNext(job: Job, s: State, s': State, t: Try, i: nat)
    requires job.Valid() && i < |job.providers| && t == job.TryAt(i, s.made) && Logs(job, s, s', t, i)
    requires ReportsMatch(job, OwnReports(s.log, |s.log|), s.attempts)
    ensures ReportsMatch(job, OwnReports(s'.log, |s'.log|), s'.attempts)
  {
    if s'.made != s.made {
      var log, a := TryReports(t, s.world, i);
      var xs, ys, all := JoinReports(s.log, log, s'.log);
      MatchNext(job, xs, s.attempts, a);
    } else if s'.log != s.log {
      var ask := [Mine(Ask(t.provider))];
      WaitsReportNothing(ask, 1);
      var xs, ys, all := JoinReports(s.log, ask, s'.log);
    }
  }

  lemma {:induction false} ReportsAfterVisit(job: Job, s: State, i: nat) returns (s': State)
    requires job.Valid() && i < |job.providers| && ReportsMatch(job, OwnReports(s.log, |s.log|), s.attempts)
    ensures s' == Visit(job, s, i) && ReportsMatch(job, OwnReports(s'.log, |s'.log|), s'.attempts)
  {
    s' := Visit(job, s, i);
    VisitLogs(job, s, i);
    ReportsNext(job, s, s', job.TryAt(i, s.made), i);
  }

  /** Over a whole walk: what the request reports is decided by what the upstreams answered. */
  lemma {:induction false} ReportsFollowAnswers(job: Job, w: World)
    requires job.Valid()
    ensures var run := Walk(job, w); ReportsMatch(job, OwnReports(run.log, |run.log|), run.attempts)
  {
    var s := Through(job, w, 0);
    for i := 0 to |job.providers|
      invariant s == Through(job, w, i) && ReportsMatch(job, OwnReports(s.log, |s.log|), s.attempts)
    {
      s := ReportsAfterVisit(job, s, i);
    }
  }

  /** A report of the log is one of them: the one that so many others precede. */
  lemma {:induction false} ReportAt(log: seq<Event<Move>>, j: nat, n: nat)
    requires j < n <= |log| && log[j].Mine? && log[j].move.Report?
    ensures |OwnReports(log, j)| < |OwnReports(log, n)| && OwnReports(log, n)[|OwnReports(log, j)|] == log[j].move
  {
    if j < n - 1 {
      ReportAt(log, j, n - 1);
    }
  }

  lemma {:induction false} ReportsGrow(log: seq<Event<Move>>, m: nat, n: nat)
    requires m <= n <= |log|
    ensures |OwnReports(log, m)| <= |OwnReports(log, n)|
  {
    if m < n {
      ReportsGrow(log, m, n - 1);
    }
  }

  // ---------------------------------------------------------------- what is waited for

  /** The delay before attempt number `a + 1`: none before the first, else what is drawn, within the base
      doubled for every attempt but the first, and the cap. */
  function DrawnDelay(k: Settings, a: nat, draw: real): real {
    if a == 0 then 0.0
    else Min(Max(0.0, draw), Min(k.baseDelay * PowerOfTwo(a - 1) as real, k.maxDelay))
  }

  /** What happens at the awaits of one attempt: others' moves of the backoff, if there is one, and those
      until the answer. */
  function WaitOf(job: Job, a: Attempt): seq<Move>
    requires job.Valid() && a.at < |job.providers|
  {
    (if a.delay != 0.0 then job.turns[a.at].nap else []) + job.turns[a.at].call
  }

  predicate AttemptsDrawn(job: Job, attempts: seq<Attempt>)
    requires job.Valid()
  {
    forall a | 0 <= a < |attempts| ::
      && attempts[a].at < |job.providers|
      && attempts[a].delay == DrawnDelay(job.k, a, job.turns[attempts[a].at].draw)
  }

  function WaitsOf(job: Job, attempts: seq<Attempt>, n: nat): seq<Move>
    requires job.Valid() && AttemptsDrawn(job, attempts) && n <= |attempts|
  {
    if n == 0 then [] else WaitsOf(job, attempts, n - 1) + WaitOf(job, attempts[n - 1])
  }

  lemma {:induction false} WaitsOfFirst(job: Job, attempts: seq<Attempt>, more: seq<Attempt>, n: nat)
    requires job.Valid() && AttemptsDrawn(job, attempts) && AttemptsDrawn(job, attempts + more) && n <= |attempts|
    ensures WaitsOf(job, attempts + more, n) == WaitsOf(job, attempts, n)
  {
    if n > 0 {
      WaitsOfFirst(job, attempts, more, n - 1);
    }
  }

  /** Others' moves among the first `n`. */
  function TheirMoves(log: seq<Event<Move>>, n: nat): seq<Move>
    requires n <= |log|
  {
    if n == 0 then [] else TheirMoves(log, n - 1) + if log[n - 1].Theirs? then [log[n - 1].move] else []
  }

  lemma {:induction false} TheirsOfFirst(xs: seq<Event<Move>>, ys: seq<Event<Move>>, n: nat)
    requires n <= |xs|
    ensures TheirMoves(xs + ys, n) == TheirMoves(xs, n)
  {
    if n > 0 {
      TheirsOfFirst(xs, ys, n - 1);
    }
  }

  lemma {:induction false} TheirsOfBoth(xs: seq<Event<Move>>, ys: seq<Event<Move>>, n: nat) returns (all: seq<Move>)
    requires n <= |ys|
    ensures all == TheirMoves(xs + ys, |xs| + n) == TheirMoves(xs, |xs|) + TheirMoves(ys, n)
  {
    if n == 0 {
      TheirsOfFirst(xs, ys, |xs|);
      all := TheirMoves(xs, |xs|);
    } else {
      var before := TheirsOfBoth(xs, ys, n - 1);
      assert (xs + ys)[|xs| + n - 1] == ys[n - 1];
      all := before + if ys[n - 1].Theirs? then [ys[n - 1].move] else [];
    }
  }

  lemma {:induction false} JoinTheirs(before: seq<Event<Move>>, log: seq<Event<Move>>, after: seq<Event<Move>>)
    returns (xs: seq<Move>, ys: seq<Move>)
    requires after == before + log
    ensures xs == TheirMoves(before, |before|) && ys == TheirMoves(log, |log|)
    ensures TheirMoves(after, |after|) == xs + ys
  {
    xs, ys := TheirMoves(before, |before|), TheirMoves(log, |log|);
    var all := TheirsOfBoth(before, log, |log|);
  }

  lemma {:induction false} TheirsOfOthers(moves: seq<Move>, n: nat)
    requires n <= |moves|
    ensures TheirMoves(Others(moves), n) == moves[..n]
  {
    if n > 0 {
      TheirsOfOthers(moves, n - 1);
      assert moves[..n] == moves[..n - 1] + [moves[n - 1]];
    }
  }

  lemma {:induction false} OwnIsNotTheirs(log: seq<Event<Move>>, n: nat)
    requires n <= |log| && forall i | 0 <= i < |log| :: log[i].Mine?
    ensures TheirMoves(log, n) == []
  {
    if n > 0 {
      OwnIsNotTheirs(log, n - 1);
    }
  }

  lemma {:induction false} TryWaits(t: Try, w: World, i: nat)
    returns (log: seq<Event<Move>>, a: Attempt, waits: seq<Move>)
    ensures log == t.Log(w) && a == t.Record(w, i) && a.at == i && waits == TheirMoves(log, |log|)
    ensures waits == (if a.delay != 0.0 then t.turn.nap else []) + t.turn.call
    ensures a.delay == DrawnDelay(t.k, t.made, t.turn.draw)
  {
    log, a := t.Log(w), t.Record(w, i);
    var ask, nap, call, close := [Mine(Ask(t.provider))], Others(t.Nap()), Others(t.turn.call), Own(t.Close(w));
    waits := FourParts(ask, nap, call, close, t.Nap(), t.turn.call, log);
    if t.made > 0 {
      DoubledIsPower(t.k.baseDelay, t.made - 1);
    }
  }

  lemma {:induction false} FourParts(ask: seq<Event<Move>>, nap: seq<Event<Move>>, call: seq<Event<Move>>,
      close: seq<Event<Move>>, napped: seq<Move>, called: seq<Move>, log: seq<Event<Move>>)
    returns (waits: seq<Move>)
    requires |ask| == 1 && ask[0].Mine? && nap == Others(napped) && call == Others(called)
    requires (forall i | 0 <= i < |close| :: close[i].Mine?) && log == ask + nap + call + close
    ensures waits == TheirMoves(log, |log|) == napped + called
  {
    OwnIsNotTheirs(ask, 1);
    OwnIsNotTheirs(close, |close|);
    TheirsOfOthers(napped, |napped|);
    TheirsOfOthers(called, |called|);
    var a, b := JoinTheirs(ask, nap, ask + nap);
    var c, d := JoinTheirs(ask + nap, call, ask + nap + call);
    var e, f := JoinTheirs(ask + nap + call, close, log);
    waits := napped + called;
    assert napped[..|napped|] == napped && called[..|called|] == called;
  }

  /** Where the request stands: it has waited for what its attempts waited for. */
  ghost predicate Waited(job: Job, s: State)
    requires job.Valid()
  {
    && s.made == |s.attempts| && AttemptsDrawn(job, s.attempts)
    && TheirMoves(s.log, |s.log|) == WaitsOf(job, s.attempts, |s.attempts|)
  }

  lemma {:induction false} DrawnMore(job: Job, attempts: seq<Attempt>, a: Attempt)
    requires job.Valid() && AttemptsDrawn(job, attempts) && a.at < |job.providers|
    requires a.delay == DrawnDelay(job.k, |attempts|, job.turns[a.at].draw)
    ensures AttemptsDrawn(job, attempts + [a])
  {
    var more := attempts + [a];
    forall b | 0 <= b < |more|
      ensures more[b].at < |job.providers| && more[b].delay == DrawnDelay(job.k, b, job.turns[more[b].at].draw)
    {
      assert more[b] == if b < |attempts| then attempts[b] else a;
    }
  }

  lemma {:induction false} DrawnNext(job: Job, attempts: seq<Attempt>, a: Attempt)
    requires job.Valid() && AttemptsDrawn(job, attempts) && a.at < |job.providers|
    requires a.delay == DrawnDelay(job.k, |attempts|, job.turns[a.at].draw)
    ensures AttemptsDrawn(job, attempts + [a])
    ensures WaitsOf(job, attempts + [a], |attempts| + 1) == WaitsOf(job, attempts, |attempts|) + WaitOf(job, a)
  {
    DrawnMore(job, attempts, a);
    WaitsOfFirst(job, attempts, [a], |attempts|);
  }

  lemma {:induction false} WaitedNext(job: Job, s: State, s': State, t: Try, i: nat)
    requires job.Valid() && i < |job.providers| && t == job.TryAt(i, s.made) && Logs(job, s, s', t, i)
    requires Waited(job, s) && (s'.made == s.made || s'.made == s.made + 1)
    ensures Waited(job, s')
  {
    if s'.made != s.made {
      var log, a, waits := TryWaits(t, s.world, i);
      var xs, ys := JoinTheirs(s.log, log, s'.log);
      DrawnNext(job, s.attempts, a);
    } else if s'.log != s.log {
      var ask := [Mine(Ask(t.provider))];
      OwnIsNotTheirs(ask, 1);
      var xs, ys := JoinTheirs(s.log, ask, s'.log);
    }
  }

  lemma {:induction false} WaitedAfterVisit(job: Job, s: State, i: nat) returns (s': State)
    requires job.Valid() && i < |job.providers| && Waited(job, s)
    ensures s' == Visit(job, s, i) && Waited(job, s')
  {
    s' := Visit(job, s, i);
    VisitLogs(job, s, i);
    WaitedNext(job, s, s', job.TryAt(i, s.made), i);
  }

  /** Over a whole walk: each attempt is delayed by what is drawn for its number, and the request gives
      way to others for its backoffs, unless they are zero, and its calls, in order, and for nothing
      else. */
  lemma {:induction false} WaitsForItsAttempts(job: Job, w: World)
    requires job.Valid()
    ensures var run := Walk(job, w);
            && AttemptsDrawn(job, run.attempts)
            && TheirMoves(run.log, |run.log|) == WaitsOf(job, run.attempts, |run.attempts|)
  {
    var s := Through(job, w, 0);
    for i := 0 to |job.providers|
      invariant s == Through(job, w, i) && Waited(job, s)
    {
      s := WaitedAfterVisit(job, s, i);
    }
  }

  ghost predicate AsksFirst(own: seq<Event<Move>>, p: string) {
    && own != [] && own[0] == Mine(Ask(p))
    && forall j | 0 < j < |own| :: !(own[j].Mine? && own[j].move.Ask?)
  }

  /** Every configured target whose turn comes in time is asked for admission once, first thing in its
      turn, also if that is refused; no other turn leaves anything in the log. */
  lemma {:induction false} AskedInTurn(job: Job, w: World, i: nat)
    requires job.Valid() && i < |job.providers|
    ensures var before, after := Through(job, w, i).log, Through(job, w, i + 1).log;
            && |before| <= |after| && after[..|before|] == before
            && if AllPassedOver(job, w, i) && OnTime(job, w, i) && job.providers[i] in job.configured
               then AsksFirst(after[|before|..], job.providers[i])
               else after == before
  {
    UndecidedIff(job, w, i);
    TurnAsks(job, Through(job, w, i), i);
  }

  lemma {:induction false} TurnAsks(job: Job, s: State, i: nat)
    requires job.Valid() && i < |job.providers|
    ensures var log := Visit(job, s, i).log;
            && |s.log| <= |log| && log[..|s.log|] == s.log
            && if s.verdict.None? && s.world.now - job.start <= job.k.deadline && job.providers[i] in job.configured
               then AsksFirst(log[|s.log|..], job.providers[i])
               else log == s.log
  {
    var t, log := job.TryAt(i, s.made), Visit(job, s, i).log;
    TryAsksFirst(t, s.world);
    if log == s.log + t.Log(s.world) {
      assert log[|s.log|..] == t.Log(s.world);
    } else if log != s.log {
      assert log[|s.log|..] == [Mine(Ask(t.provider))];
    }
  }

  lemma {:induction false} TryAsksFirst(t: Try, w: World)
    ensures AsksFirst(t.Log(w), t.provider)
  {
    var ask, nap, call, close := [Mine(Ask(t.provider))], Others(t.Nap()), Others(t.turn.call), Own(t.Close(w));
    OnlyTheFirst(ask, nap, call, close, t.Log(w), t.provider);
  }

  lemma {:induction false} OnlyTheFirst(ask: seq<Event<Move>>, nap: seq<Event<Move>>, call: seq<Event<Move>>,
      close: seq<Event<Move>>, log: seq<Event<Move>>, p: string)
    requires ask == [Mine(Ask(p))] && log == ask + nap + call + close
    requires forall j | 0 <= j < |nap| :: nap[j].Theirs?
    requires forall j | 0 <= j < |call| :: call[j].Theirs?
    requires forall j | 0 <= j < |close| :: !close[j].move.Ask?
    ensures AsksFirst(log, p)
  {
  }

  /** The samples among the first `n` moves. */
  function SamplesIn(moves: seq<Move>, n: nat): seq<Measure>
    requires n <= |moves|
  {
    if n == 0 then []
    else SamplesIn(moves, n - 1)
         + match moves[n - 1]
           case Sample(p, seconds) => [Measure(p, seconds)]
           case _ => []
  }

  /** The world's samples are those taken before and those of the moves, in order. */
  lemma {:induction false} SamplesAddUp(k: Settings, w: World, moves: seq<Move>, n: nat)
    requires n <= |moves|
    ensures Replay(k, w, moves[..n]).samples == w.samples + SamplesIn(moves, n)
  {
    if n > 0 {
      SamplesAddUp(k, w, moves, n - 1);
      assert moves[..n][..n - 1] == moves[..n - 1];
    }
  }

  // ---------------------------------------------------------------- interleaved requests

  function Seen(h: seq<Tagged<Move>>, id: nat): (log: seq<Event<Move>>)
    ensures |log| == |h|
    ensures forall i | 0 <= i < |h| :: log[i] == EventFor(h[i], id)
  {
    seq(|h|, i requires 0 <= i < |h| => EventFor(h[i], id))
  }

  /** Ticks belong to no request. */
  function EventFor(t: Tagged<Move>, id: nat): Event<Move> {
    if t.id == id && !t.move.Tick? then Mine(t.move) else Theirs(t.move)
  }

  /** In the history `h`, request `id` is one run of a fallback loop, begun after the first
      `a` moves and possibly still in progress; the moves of all other requests are what
      happens at its awaits. */
  ghost predicate RunsLoop(k: Settings, w: World, h: seq<Tagged<Move>>, id: nat, a: nat, job: Job)
    requires job.Valid() && a <= |h|
  {
    var begun := Replay(k, w, AllMoves(h[..a]));
    var log := Walk(job, begun).log;
    var b := if a + |log| <= |h| then a + |log| else |h|;
    && job.k == k && job.start == begun.now
    && (forall i | 0 <= i < a || b <= i < |h| :: Seen(h, id)[i].Theirs?)
    && Seen(h, id) == Seen(h, id)[..a] + log[..b - a] + Seen(h, id)[b..]
  }

  ghost predicate IsLoop(k: Settings, w: World, h: seq<Tagged<Move>>, id: nat) {
    exists a: nat, job: Job :: job.Valid() && a <= |h| && RunsLoop(k, w, h, id, a, job)
  }

  lemma {:induction false} ObeysPrefix(k: Settings, w: World, log: seq<Event<Move>>, n: nat)
    requires Obeys(k, w, log) && n <= |log|
    ensures Obeys(k, w, log[..n])
  {
    if n < |log| {
      assert log[..|log| - 1][..n] == log[..n];
      ObeysPrefix(k, w, log[..|log| - 1], n);
    } else {
      assert log[..n] == log;
    }
  }

  /** A request's discipline does not depend on what went on before it started. */
  lemma {:induction false} ObeysLater(k: Settings, w: World, before: seq<Event<Move>>, log: seq<Event<Move>>)
    requires forall i | 0 <= i < |before| :: before[i].Theirs?
    requires Obeys(k, Now(k, w, before), log)
    ensures Obeys(k, w, before + log)
    ensures Held(k, w, before + log) == Held(k, Now(k, w, before), log)
  {
    if log == [] {
      OthersKeepHold(k, w, [], before);
      assert [] + before == before == before + log;
    } else {
      var rest := log[..|log| - 1];
      ObeysLater(k, w, before, rest);
      assert (before + log)[..|before + log| - 1] == before + rest;
      NowAppend(k, w, before, rest);
    }
  }

  lemma {:induction false} LoopObeys(k: Settings, w: World, h: seq<Tagged<Move>>, id: nat, a: nat, job: Job)
    requires job.Valid() && a <= |h| && RunsLoop(k, w, h, id, a, job)
    ensures Obeys(k, w, Seen(h, id))
  {
    var begun := Replay(k, w, AllMoves(h[..a]));
    var log := Walk(job, begun).log;
    var b := if a + |log| <= |h| then a + |log| else |h|;
    var seen := Seen(h, id);
    assert Moves(seen[..a]) == AllMoves(h[..a]);
    WalkObeys(job, begun, |job.providers|);
    ObeysPrefix(k, begun, log, b - a);
    ObeysBetween(k, w, seen[..a], log[..b - a], seen[b..]);
  }

  lemma {:induction false} ObeysBetween(k: Settings, w: World, before: seq<Event<Move>>, log: seq<Event<Move>>,
      after: seq<Event<Move>>)
    requires forall i | 0 <= i < |before| :: before[i].Theirs?
    requires forall i | 0 <= i < |after| :: after[i].Theirs?
    requires Obeys(k, Now(k, w, before), log)
    ensures Obeys(k, w, before + log + after)
  {
    ObeysLater(k, w, before, log);
    OthersKeepHold(k, w, before + log, after);
  }

  /** What the history does to one provider's breaker. */
  function Acts(h: seq<Tagged<Move>>, p: string): seq<BreakerRuns.Act> {
    if h == [] then []
    else
      Acts(h[..|h| - 1], p) + ActOf(h[|h| - 1], p)
  }

  ghost predicate Disciplined(k: Settings, w: World, h: seq<Tagged<Move>>) {
    && (forall id :: Obeys(k, w, Seen(h, id)))
    && (forall i | 0 <= i < |h| && h[i].move.Tick? :: h[i].move.dt >= 0.0)
  }

  ghost predicate Mirrors(k: Settings, w: World, h: seq<Tagged<Move>>, p: string, s: BreakerRuns.System) {
    var now := Replay(k, w, AllMoves(h));
    && s.breaker == Lookup(now.breakers, p) && s.now == now.now
    && forall id :: id in s.outstanding <==> Held(k, w, Seen(h, id)) == Some(p)
  }

  lemma {:induction false} SeenLast(h: seq<Tagged<Move>>, id: nat)
    requires h != []
    ensures Seen(h, id)[..|h| - 1] == Seen(h[..|h| - 1], id)
    ensures AllMoves(h)[..|h| - 1] == AllMoves(h[..|h| - 1])
    ensures Moves(Seen(h, id)) == AllMoves(h)
  {
  }

  function ActOf(t: Tagged<Move>, p: string): seq<BreakerRuns.Act> {
    match t.move
    case Tick(dt) => [BreakerRuns.Tick(dt)]
    case Ask(q) => if q == p then [BreakerRuns.Ask(t.id)] else []
    case Report(q, ok) => if q == p then [BreakerRuns.Report(t.id, ok)] else []
    case Sample(_, _) => []
  }

  /** What a move does to the requests' holds. */
  lemma {:induction false} HeldNext(k: Settings, w: World, h: seq<Tagged<Move>>, id: nat)
    requires h != []
    ensures var before, last := h[..|h| - 1], h[|h| - 1];
            Held(k, w, Seen(h, id)) ==
            if last.id != id then Held(k, w, Seen(before, id))
            else match last.move
                 case Ask(q) => if Admits(k, Replay(k, w, AllMoves(before)), q) then Some(q) else None
                 case Report(_, _) => None
                 case _ => Held(k, w, Seen(before, id))
  {
    SeenLast(h, id);
    assert Moves(Seen(h[..|h| - 1], id)) == AllMoves(h[..|h| - 1]);
  }

  lemma {:induction false} MirrorsNext(k: Settings, w: World, h: seq<Tagged<Move>>, p: string, s: BreakerRuns.System)
    requires k.breaker.Usable() && h != [] && Disciplined(k, w, h) && Mirrors(k, w, h[..|h| - 1], p, s)
    ensures var acts := ActOf(h[|h| - 1], p);
            && BreakerRuns.Legal(k.breaker, s, acts)
            && Mirrors(k, w, h, p, BreakerRuns.Run(k.breaker, s, acts))
  {
    var before, last := h[..|h| - 1], h[|h| - 1];
    var acts := ActOf(last, p);
    SeenLast(h, last.id);
    assert Obeys(k, w, Seen(h, last.id));
    forall id
      ensures Held(k, w, Seen(h, id)) ==
              if last.id != id then Held(k, w, Seen(before, id))
              else match last.move
                   case Ask(q) => if Admits(k, Replay(k, w, AllMoves(before)), q) then Some(q) else None
                   case Report(_, _) => None
                   case _ => Held(k, w, Seen(before, id))
    {
      HeldNext(k, w, h, id);
    }
    if acts != [] {
      assert BreakerRuns.Run(k.breaker, s, acts) == BreakerRuns.Next(k.breaker, s, acts[0]);
      assert BreakerRuns.Enabled(s, acts[0]);
    }
  }

  /** Started with fresh breakers, any interleaving of disciplined requests is, for each
      provider, a legal run of the breaker system, with the same breaker, clock and
      outstanding calls; so everything proved of all reachable systems holds of it. */
  lemma {:induction false} InterleavingsAreBreakerRuns(k: Settings, w: World, h: seq<Tagged<Move>>, p: string)
    requires k.breaker.Usable() && w.breakers == map[] && Disciplined(k, w, h)
    ensures var start := BreakerRuns.Initial(w.now);
            && BreakerRuns.Legal(k.breaker, start, Acts(h, p))
            && Mirrors(k, w, h, p, BreakerRuns.Run(k.breaker, start, Acts(h, p)))
  {
    if h != [] {
      var before := h[..|h| - 1];
      forall id
        ensures Obeys(k, w, Seen(before, id))
      {
        SeenLast(h, id);
        ObeysPrefix(k, w, Seen(h, id), |h| - 1);
      }
      InterleavingsAreBreakerRuns(k, w, before, p);
      var start := BreakerRuns.Initial(w.now);
      MirrorsNext(k, w, h, p, BreakerRuns.Run(k.breaker, start, Acts(before, p)));
      BreakerRuns.RunAppend(k.breaker, start, Acts(before, p), ActOf(h[|h| - 1], p));
    }
  }

  /** All together: however many fallback loops interleave, each provider's breaker is in a
      reachable state of the breaker system, and its outstanding calls are exactly the
      requests that hold it. */
  lemma {:induction false} LoopsReachBreakerStates(k: Settings, w: World, h: seq<Tagged<Move>>, p: string)
    requires k.breaker.Usable() && w.breakers == map[]
    requires forall i | 0 <= i < |h| && h[i].move.Tick? :: h[i].move.dt >= 0.0
    requires forall id :: IsLoop(k, w, h, id)
    ensures exists s :: BreakerRuns.Reachable(k.breaker, s) && Mirrors(k, w, h, p, s)
  {
    forall id
      ensures Obeys(k, w, Seen(h, id))
    {
      assert IsLoop(k, w, h, id);
      var a: nat, job: Job :| job.Valid() && a <= |h| && RunsLoop(k, w, h, id, a, job);
      LoopObeys(k, w, h, id, a, job);
    }
    InterleavingsAreBreakerRuns(k, w, h, p);
    var s := BreakerRuns.Run(k.breaker, BreakerRuns.Initial(w.now), Acts(h, p));
    assert BreakerRuns.RunsTo(k.breaker, w.now, Acts(h, p), s);
  }
}
