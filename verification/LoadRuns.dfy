/** The load on a dead provider in terms of requests: any number of interleaved fallback loops,
    whose target lists may repeat the provider, and at most so many of them in progress. */
module LoadRuns {
  import opened Prelude
  import opened Breakers
  import opened Executor
  import opened Histories
  import opened ExecutorRuns
  import BreakerRuns

  /** Request `id` starts its loop after so many moves of the history. */
  datatype Begun = Begun(at: nat, job: Job)

  function WorldAt(k: Settings, w: World, h: seq<Tagged<Move>>, n: nat): World
    requires n <= |h|
  {
    Replay(k, w, AllMoves(h[..n]))
  }

  /** The request's moves, with those of others at its awaits, until it ends. */
  function LoopLog(k: Settings, w: World, h: seq<Tagged<Move>>, g: Begun): seq<Event<Move>>
    requires g.job.Valid() && g.at <= |h|
  {
    Walk(g.job, WorldAt(k, w, h, g.at)).log
  }

  /** The history consists of these requests' loops and of ticks. */
  ghost predicate AreLoops(k: Settings, w: World, h: seq<Tagged<Move>>, loops: seq<Begun>) {
    && (forall id | 0 <= id < |loops| ::
          && loops[id].job.Valid() && loops[id].at <= |h|
          && RunsLoop(k, w, h, id, loops[id].at, loops[id].job))
    && (forall i | 0 <= i < |h| :: if h[i].move.Tick? then h[i].move.dt >= 0.0 else h[i].id < |loops|)
  }

  /** After `n` moves the request has moved and has not ended. */
  predicate Busy(k: Settings, w: World, h: seq<Tagged<Move>>, g: Begun, n: nat) {
    g.job.Valid() && g.at <= |h| && g.at < n < g.at + |LoopLog(k, w, h, g)|
  }

  function InProgress(k: Settings, w: World, h: seq<Tagged<Move>>, loops: seq<Begun>, n: nat): set<nat> {
    set id: nat | 0 <= id < |loops| && Busy(k, w, h, loops[id], n)
  }

  // ---------------------------------------------------------------- who holds a breaker is in progress

  lemma {:induction false} SeenPrefix(h: seq<Tagged<Move>>, id: nat, n: nat)
    requires n <= |h|
    ensures Seen(h[..n], id) == Seen(h, id)[..n]
  {
  }

  lemma {:induction false} OthersHoldNothing(k: Settings, w: World, log: seq<Event<Move>>)
    requires forall i | 0 <= i < |log| :: log[i].Theirs?
    ensures Obeys(k, w, log) && Held(k, w, log) == None
  {
    OthersKeepHold(k, w, [], log);
    assert [] + log == log;
  }

  /** After its last move a request holds nothing. */
  lemma {:induction false} EndedHoldsNothing(k: Settings, w: World, before: seq<Event<Move>>, job: Job,
      after: seq<Event<Move>>)
    requires job.Valid() && job.k == k
    requires forall i | 0 <= i < |before| :: before[i].Theirs?
    requires forall i | 0 <= i < |after| :: after[i].Theirs?
    ensures var log := Walk(job, Now(k, w, before)).log;
            Held(k, w, before + log + after) == None
  {
    var begun := Now(k, w, before);
    var log := Walk(job, begun).log;
    WalkObeys(job, begun, |job.providers|);
    ObeysLater(k, w, before, log);
    OthersKeepHold(k, w, before + log, after);
  }

  lemma {:induction false} HolderIsBusy(k: Settings, w: World, h: seq<Tagged<Move>>, loops: seq<Begun>, id: nat, n: nat)
    requires AreLoops(k, w, h, loops) && n <= |h| && Held(k, w, Seen(h[..n], id)).Some?
    ensures id in InProgress(k, w, h, loops, n)
  {
    var seen := Seen(h, id);
    SeenPrefix(h, id, n);
    if id >= |loops| {
      OthersHoldNothing(k, w, seen[..n]);
    } else {
      var g := loops[id];
      var log := LoopLog(k, w, h, g);
      assert RunsLoop(k, w, h, id, g.at, g.job);
      if n <= g.at {
        OthersHoldNothing(k, w, seen[..n]);
      } else if n >= g.at + |log| {
        WholeLoop(k, w, h, id, g, n);
      }
    }
  }

  /** What a request sees is others' moves, its log, and others' moves again. */
  ghost predicate Around(seen: seq<Event<Move>>, a: nat, log: seq<Event<Move>>) {
    && a + |log| <= |seen| && seen == seen[..a] + log + seen[a + |log|..]
    && forall i | 0 <= i < a || a + |log| <= i < |seen| :: seen[i].Theirs?
  }

  lemma {:induction false} LoopIsAround(k: Settings, w: World, h: seq<Tagged<Move>>, id: nat, g: Begun)
    returns (log: seq<Event<Move>>)
    requires g.job.Valid() && g.at <= |h| && RunsLoop(k, w, h, id, g.at, g.job)
    requires g.at + |LoopLog(k, w, h, g)| <= |h|
    ensures log == LoopLog(k, w, h, g) && Around(Seen(h, id), g.at, log) && g.job.k == k
  {
    log := LoopLog(k, w, h, g);
    assert log[..g.at + |log| - g.at] == log;
  }

  lemma {:induction false} AroundParts(seen: seq<Event<Move>>, a: nat, log: seq<Event<Move>>, n: nat)
    returns (before: seq<Event<Move>>, after: seq<Event<Move>>)
    requires Around(seen, a, log) && a + |log| <= n <= |seen|
    ensures before == seen[..a] && seen[..n] == before + log + after
    ensures forall i | 0 <= i < |before| :: before[i].Theirs?
    ensures forall i | 0 <= i < |after| :: after[i].Theirs?
  {
    before, after := seen[..a], seen[a + |log|..n];
    forall i | 0 <= i < |after|
      ensures after[i].Theirs?
    {
      assert after[i] == seen[a + |log| + i];
    }
  }

  lemma {:induction false} WholeLoop(k: Settings, w: World, h: seq<Tagged<Move>>, id: nat, g: Begun, n: nat)
    requires g.job.Valid() && g.at <= |h| && RunsLoop(k, w, h, id, g.at, g.job)
    requires g.at + |LoopLog(k, w, h, g)| <= n <= |h|
    ensures Held(k, w, Seen(h, id)[..n]) == None
  {
    var log := LoopIsAround(k, w, h, id, g);
    var before, after := AroundParts(Seen(h, id), g.at, log, n);
    assert Moves(before) == AllMoves(h[..g.at]);
    EndedHoldsNothing(k, w, before, g.job, after);
  }

  lemma {:induction false} LoopsAreDisciplined(k: Settings, w: World, h: seq<Tagged<Move>>, loops: seq<Begun>, n: nat)
    requires AreLoops(k, w, h, loops) && n <= |h|
    ensures Disciplined(k, w, h[..n])
  {
    forall id: nat
      ensures Obeys(k, w, Seen(h[..n], id))
    {
      SeenPrefix(h, id, n);
      if id < |loops| {
        LoopObeys(k, w, h, id, loops[id].at, loops[id].job);
        ObeysPrefix(k, w, Seen(h, id), n);
      } else {
        OthersHoldNothing(k, w, Seen(h, id)[..n]);
      }
    }
  }

  lemma {:induction false} SmallerSet(a: set<nat>, b: set<nat>)
    requires a <= b
    ensures |a| <= |b|
  {
    assert b == a + (b - a);
    assert |b| == |a| + |b - a|;
  }

  // ---------------------------------------------------------------- calls of one provider

  /** How many calls of the provider are admitted between the moves `m` and `n`. */
  function CallsTo(k: Settings, w: World, h: seq<Tagged<Move>>, p: string, m: nat, n: nat): nat
    requires n <= |h|
    decreases n
  {
    if n <= m then 0
    else CallsTo(k, w, h, p, m, n - 1) + Count(k, w, h, p, n - 1)
  }

  function Count(k: Settings, w: World, h: seq<Tagged<Move>>, p: string, i: nat): nat
    requires i < |h|
  {
    if CallAt(k, w, h, p, i) then 1 else 0
  }

  lemma {:induction false} OneMore(k: Settings, w: World, h: seq<Tagged<Move>>, p: string, m: nat, n: nat)
    requires m < n <= |h|
    ensures CallsTo(k, w, h, p, m, n) == CallsTo(k, w, h, p, m, n - 1) + Count(k, w, h, p, n - 1)
  {
  }

  predicate CallAt(k: Settings, w: World, h: seq<Tagged<Move>>, p: string, i: nat)
    requires i < |h|
  {
    h[i].move == Ask(p) && Admits(k, WorldAt(k, w, h, i), p)
  }

  /** The breaker system after at most one act. */
  function StepBy(c: Config, s: BreakerRuns.System, act: seq<BreakerRuns.Act>): BreakerRuns.System {
    if act == [] then s else BreakerRuns.Next(c, s, act[0])
  }

  lemma {:induction false} RunByOne(c: Config, s: BreakerRuns.System, acts: seq<BreakerRuns.Act>,
      act: seq<BreakerRuns.Act>)
    requires |act| <= 1
    ensures BreakerRuns.Run(c, s, acts + act) == StepBy(c, BreakerRuns.Run(c, s, acts), act)
    ensures BreakerRuns.Legal(c, s, acts + act) <==>
            && BreakerRuns.Legal(c, s, acts)
            && (act != [] ==> BreakerRuns.Enabled(BreakerRuns.Run(c, s, acts), act[0]))
  {
    BreakerRuns.RunAppend(c, s, acts, act);
    if act != [] {
      assert act[1..] == [];
    }
  }

  /** The system of a provider's breaker after `n` moves. */
  function SystemAt(k: Settings, w: World, h: seq<Tagged<Move>>, p: string, n: nat): BreakerRuns.System
    requires n <= |h|
  {
    if n == 0 then BreakerRuns.Initial(w.now)
    else StepBy(k.breaker, SystemAt(k, w, h, p, n - 1), ActOf(h[n - 1], p))
  }

  lemma {:induction false} ActsOneMore(h: seq<Tagged<Move>>, p: string, n: nat)
    requires n < |h|
    ensures Acts(h[..n + 1], p) == Acts(h[..n], p) + ActOf(h[n], p) && |ActOf(h[n], p)| <= 1
  {
    assert h[..n + 1][..n] == h[..n];
  }

  lemma {:induction false} RunThen(c: Config, start: BreakerRuns.System, before: seq<BreakerRuns.Act>,
      act: seq<BreakerRuns.Act>, s: BreakerRuns.System, acts: seq<BreakerRuns.Act>)
    requires |act| <= 1 && s == BreakerRuns.Run(c, start, before) && acts == before + act
    ensures StepBy(c, s, act) == BreakerRuns.Run(c, start, acts)
  {
    RunByOne(c, start, before, act);
  }

  lemma {:induction false} SystemIsRun(k: Settings, w: World, h: seq<Tagged<Move>>, p: string, n: nat)
    returns (acts: seq<BreakerRuns.Act>)
    requires n <= |h|
    ensures acts == Acts(h[..n], p)
    ensures SystemAt(k, w, h, p, n) == BreakerRuns.Run(k.breaker, BreakerRuns.Initial(w.now), acts)
  {
    if n == 0 {
      return [];
    }
    var before := SystemIsRun(k, w, h, p, n - 1);
    var s, act := SystemAt(k, w, h, p, n - 1), ActOf(h[n - 1], p);
    ActsOneMore(h, p, n - 1);
    acts := before + act;
    RunThen(k.breaker, BreakerRuns.Initial(w.now), before, act, s, acts);
  }

  lemma {:induction false} SystemMirrors(k: Settings, w: World, h: seq<Tagged<Move>>, loops: seq<Begun>, p: string,
      n: nat)
    requires k.breaker.Usable() && w.breakers == map[] && AreLoops(k, w, h, loops) && n <= |h|
    ensures Mirrors(k, w, h[..n], p, SystemAt(k, w, h, p, n))
    ensures BreakerRuns.Legal(k.breaker, BreakerRuns.Initial(w.now), Acts(h[..n], p))
    ensures BreakerRuns.Reachable(k.breaker, SystemAt(k, w, h, p, n))
  {
    LoopsAreDisciplined(k, w, h, loops, n);
    InterleavingsAreBreakerRuns(k, w, h[..n], p);
    var acts := SystemIsRun(k, w, h, p, n);
    assert BreakerRuns.RunsTo(k.breaker, w.now, Acts(h[..n], p), SystemAt(k, w, h, p, n));
  }

  /** The breaker system is in step with the gateway, with few calls outstanding. */
  predicate InStep(k: Settings, w: World, h: seq<Tagged<Move>>, p: string, n: nat, s: BreakerRuns.System,
                   concurrency: nat)
    requires n <= |h|
  {
    && s.breaker == Lookup(WorldAt(k, w, h, n).breakers, p) && s.now == WorldAt(k, w, h, n).now
    && |s.outstanding| <= concurrency
  }

  ghost predicate FewInProgress(k: Settings, w: World, h: seq<Tagged<Move>>, loops: seq<Begun>, m: nat,
                                concurrency: nat)
  {
    forall n | m <= n <= |h| :: |InProgress(k, w, h, loops, n)| <= concurrency
  }

  lemma {:induction false} SystemInStep(k: Settings, w: World, h: seq<Tagged<Move>>, loops: seq<Begun>, p: string,
      m: nat, n: nat, concurrency: nat)
    requires k.breaker.Usable() && w.breakers == map[] && AreLoops(k, w, h, loops) && m <= n <= |h|
    requires FewInProgress(k, w, h, loops, m, concurrency)
    ensures InStep(k, w, h, p, n, SystemAt(k, w, h, p, n), concurrency)
    ensures BreakerRuns.Reachable(k.breaker, SystemAt(k, w, h, p, n))
  {
    var s := SystemAt(k, w, h, p, n);
    SystemMirrors(k, w, h, loops, p, n);
    forall id | id in s.outstanding
      ensures id in InProgress(k, w, h, loops, n)
    {
      HolderIsBusy(k, w, h, loops, id, n);
    }
    SmallerSet(s.outstanding, InProgress(k, w, h, loops, n));
  }

  lemma {:induction false} LegalSoFar(c: Config, start: real, h: seq<Tagged<Move>>, p: string, i: nat)
    requires i < |h| && BreakerRuns.Legal(c, BreakerRuns.Initial(start), Acts(h[..i + 1], p))
    ensures var act := ActOf(h[i], p);
            act != [] ==>
              BreakerRuns.Enabled(BreakerRuns.Run(c, BreakerRuns.Initial(start), Acts(h[..i], p)), act[0])
  {
    ActsOneMore(h, p, i);
    RunByOne(c, BreakerRuns.Initial(start), Acts(h[..i], p), ActOf(h[i], p));
  }

  lemma {:induction false} NextIsEnabled(k: Settings, w: World, h: seq<Tagged<Move>>, loops: seq<Begun>, p: string,
      i: nat)
    requires k.breaker.Usable() && w.breakers == map[] && AreLoops(k, w, h, loops) && i < |h|
    ensures var act := ActOf(h[i], p);
            act != [] ==> BreakerRuns.Enabled(SystemAt(k, w, h, p, i), act[0])
  {
    SystemMirrors(k, w, h, loops, p, i + 1);
    var acts := SystemIsRun(k, w, h, p, i);
    LegalSoFar(k.breaker, w.now, h, p, i);
  }

  /** From move `m` on, whatever is reported of the provider is a failure. */
  predicate ReportsFail(h: seq<Tagged<Move>>, p: string, m: nat) {
    forall i | m <= i < |h| && h[i].move.Report? && h[i].move.provider == p :: !h[i].move.ok
  }

  /** How many of the request's calls have been answered before move `n`. */
  function AnsweredBy(k: Settings, w: World, h: seq<Tagged<Move>>, g: Begun, n: nat): nat
    requires g.job.Valid() && g.at <= |h|
  {
    var log := LoopLog(k, w, h, g);
    |OwnReports(log, if n <= g.at then 0 else if n - g.at <= |log| then n - g.at else |log|)|
  }

  /** The request's calls of the provider that are answered from move `m` on fail. */
  ghost predicate CallsFail(k: Settings, w: World, h: seq<Tagged<Move>>, g: Begun, p: string, m: nat) {
    g.job.Valid() && g.at <= |h| ==>
      var attempts := Walk(g.job, WorldAt(k, w, h, g.at)).attempts;
      forall a | AnsweredBy(k, w, h, g, m) <= a < AnsweredBy(k, w, h, g, |h|) && a < |attempts| ::
        attempts[a].at < |g.job.providers| && g.job.providers[attempts[a].at] == p ==>
          Fails(g.job.turns[attempts[a].at].answer)
  }

  /** The provider is dead from move `m` on: it answers every call with a failure. */
  ghost predicate DeadFrom(k: Settings, w: World, h: seq<Tagged<Move>>, loops: seq<Begun>, p: string, m: nat) {
    forall id | 0 <= id < |loops| :: CallsFail(k, w, h, loops[id], p, m)
  }

  /** A report in the history, seen from the request that makes it. */
  lemma {:induction false} ReportInLog(k: Settings, w: World, h: seq<Tagged<Move>>, loops: seq<Begun>, n: nat)
    returns (g: Begun, log: seq<Event<Move>>, j: nat)
    requires AreLoops(k, w, h, loops) && n < |h| && h[n].move.Report?
    ensures h[n].id < |loops| && g == loops[h[n].id] && g.job.Valid() && g.at <= |h|
    ensures log == LoopLog(k, w, h, g) && n == g.at + j && j < |log| && log[j] == Mine(h[n].move)
  {
    var id := h[n].id;
    g := loops[id];
    log := LoopLog(k, w, h, g);
    assert RunsLoop(k, w, h, id, g.at, g.job);
    var seen := Seen(h, id);
    assert seen[n] == Mine(h[n].move);
    var b := if g.at + |log| <= |h| then g.at + |log| else |h|;
    assert seen == seen[..g.at] + log[..b - g.at] + seen[b..];
    j := n - g.at;
  }

  lemma {:induction false} FailureIsReported(job: Job, begun: World, log: seq<Event<Move>>, j: nat, n: nat, move: Move)
    returns (a: nat)
    requires job.Valid() && log == Walk(job, begun).log && j < n <= |log| && log[j] == Mine(move) && move.Report?
    ensures a == |OwnReports(log, j)| < |OwnReports(log, n)| && a < |Walk(job, begun).attempts|
    ensures var at := Walk(job, begun).attempts[a].at;
            at < |job.providers| && move == Report(job.providers[at], !Fails(job.turns[at].answer))
  {
    a := |OwnReports(log, j)|;
    ReportsFollowAnswers(job, begun);
    ReportAt(log, j, n);
    ReportAt(log, j, |log|);
  }

  lemma {:induction false} ReportBetween(log: seq<Event<Move>>, from: nat, j: nat, to: nat)
    requires from <= j < to <= |log| && log[j].Mine? && log[j].move.Report?
    ensures |OwnReports(log, from)| <= |OwnReports(log, j)| < |OwnReports(log, to)|
  {
    ReportAt(log, j, to);
    ReportsGrow(log, from, j);
  }

  lemma {:induction false} AnsweredIs(k: Settings, w: World, h: seq<Tagged<Move>>, g: Begun, n: nat,
      log: seq<Event<Move>>) returns (upto: nat)
    requires g.job.Valid() && g.at <= |h| && log == LoopLog(k, w, h, g)
    ensures upto == if n <= g.at then 0 else if n - g.at <= |log| then n - g.at else |log|
    ensures AnsweredBy(k, w, h, g, n) == |OwnReports(log, upto)|
  {
    upto := if n <= g.at then 0 else if n - g.at <= |log| then n - g.at else |log|;
  }

  lemma {:induction false} AnsweredBetween(k: Settings, w: World, h: seq<Tagged<Move>>, g: Begun, m: nat, j: nat,
      log: seq<Event<Move>>, a: nat)
    requires g.job.Valid() && g.at <= |h| && log == LoopLog(k, w, h, g)
    requires j < |log| && m <= g.at + j < |h| && log[j].Mine? && log[j].move.Report? && a == |OwnReports(log, j)|
    ensures AnsweredBy(k, w, h, g, m) <= a < AnsweredBy(k, w, h, g, |h|)
  {
    var from := AnsweredIs(k, w, h, g, m, log);
    var to := AnsweredIs(k, w, h, g, |h|, log);
    ReportBetween(log, from, j, to);
  }

  lemma {:induction false} CallFails(k: Settings, w: World, h: seq<Tagged<Move>>, g: Begun, p: string, m: nat,
      log: seq<Event<Move>>, j: nat, move: Move)
    requires g.job.Valid() && g.at <= |h| && CallsFail(k, w, h, g, p, m) && log == LoopLog(k, w, h, g)
    requires j < |log| && m <= g.at + j < |h| && log[j] == Mine(move) && move.Report? && move.provider == p
    ensures !move.ok
  {
    var a := FailureIsReported(g.job, WorldAt(k, w, h, g.at), log, j, |log|, move);
    AnsweredBetween(k, w, h, g, m, j, log, a);
  }

  lemma {:induction false} DeadReportsFail(k: Settings, w: World, h: seq<Tagged<Move>>, loops: seq<Begun>, p: string,
      m: nat)
    requires AreLoops(k, w, h, loops) && DeadFrom(k, w, h, loops, p, m)
    ensures ReportsFail(h, p, m)
  {
    forall n | m <= n < |h| && h[n].move.Report? && h[n].move.provider == p
      ensures !h[n].move.ok
    {
      var g, log, j := ReportInLog(k, w, h, loops, n);
      CallFails(k, w, h, g, p, m, log, j, h[n].move);
    }
  }

  /** A run of the breaker system from `s` to `t`, all failing, with few calls outstanding, that
      admits so many. */
  ghost predicate FailingRun(c: Config, s: BreakerRuns.System, acts: seq<BreakerRuns.Act>, t: BreakerRuns.System,
                             concurrency: nat, calls: nat)
  {
    && BreakerRuns.Legal(c, s, acts) && BreakerRuns.Run(c, s, acts) == t && BreakerRuns.AllFail(acts)
    && BreakerRuns.AtMost(c, s, acts, concurrency) && BreakerRuns.Admitted(c, s, acts) == calls
  }

  /** One act of the breaker system, a failing one, that leaves few calls outstanding and admits so
      many. */
  predicate FailingAct(c: Config, t: BreakerRuns.System, act: seq<BreakerRuns.Act>, concurrency: nat, calls: nat) {
    && |act| <= 1
    && (act != [] ==> BreakerRuns.Enabled(t, act[0]) && !(act[0].Report? && act[0].ok))
    && |StepBy(c, t, act).outstanding| <= concurrency
    && calls == if act != [] then BreakerRuns.Asks(c, t, act[0]) else 0
  }

  lemma {:induction false} FailingRunOneMore(c: Config, s: BreakerRuns.System, acts: seq<BreakerRuns.Act>,
      t: BreakerRuns.System, concurrency: nat, calls: nat, act: seq<BreakerRuns.Act>, more: nat)
    requires FailingRun(c, s, acts, t, concurrency, calls) && FailingAct(c, t, act, concurrency, more)
    ensures FailingRun(c, s, acts + act, StepBy(c, t, act), concurrency, calls + more)
  {
    RunByOne(c, s, acts, act);
    if act == [] {
      assert acts + act == acts;
    } else {
      assert act == [act[0]];
      BreakerRuns.AdmittedAppend(c, s, acts, act[0], concurrency);
    }
  }

  /** A move is a call of the provider exactly when the breaker system admits its act. */
  lemma {:induction false} CallIsAsk(k: Settings, w: World, h: seq<Tagged<Move>>, p: string, i: nat,
      s: BreakerRuns.System, concurrency: nat)
    requires i < |h| && InStep(k, w, h, p, i, s, concurrency)
    ensures var act := ActOf(h[i], p);
            && |act| <= 1
            && Count(k, w, h, p, i) == if act != [] then BreakerRuns.Asks(k.breaker, s, act[0]) else 0
  {
  }

  lemma {:induction false} MoveIsAct(k: Settings, w: World, h: seq<Tagged<Move>>, loops: seq<Begun>, p: string,
      m: nat, n: nat, concurrency: nat)
    requires k.breaker.Usable() && w.breakers == map[] && AreLoops(k, w, h, loops) && m <= n < |h|
    requires FewInProgress(k, w, h, loops, m, concurrency) && ReportsFail(h, p, m)
    ensures FailingAct(k.breaker, SystemAt(k, w, h, p, n), ActOf(h[n], p), concurrency, Count(k, w, h, p, n))
  {
    SystemInStep(k, w, h, loops, p, m, n, concurrency);
    SystemInStep(k, w, h, loops, p, m, n + 1, concurrency);
    NextIsEnabled(k, w, h, loops, p, n);
    CallIsAsk(k, w, h, p, n, SystemAt(k, w, h, p, n), concurrency);
  }

  /** Every move from `m` on is such an act. */
  ghost predicate FailingActs(k: Settings, w: World, h: seq<Tagged<Move>>, p: string, m: nat, concurrency: nat) {
    forall i | m <= i < |h| ::
      FailingAct(k.breaker, SystemAt(k, w, h, p, i), ActOf(h[i], p), concurrency, Count(k, w, h, p, i))
  }

  lemma {:induction false} MovesAreActs(k: Settings, w: World, h: seq<Tagged<Move>>, loops: seq<Begun>, p: string,
      m: nat, concurrency: nat)
    requires k.breaker.Usable() && w.breakers == map[] && AreLoops(k, w, h, loops)
    requires FewInProgress(k, w, h, loops, m, concurrency) && ReportsFail(h, p, m)
    ensures FailingActs(k, w, h, p, m, concurrency)
  {
    forall i | m <= i < |h|
      ensures FailingAct(k.breaker, SystemAt(k, w, h, p, i), ActOf(h[i], p), concurrency, Count(k, w, h, p, i))
    {
      MoveIsAct(k, w, h, loops, p, m, i, concurrency);
    }
  }

  lemma {:induction false} LastAct(k: Settings, w: World, h: seq<Tagged<Move>>, p: string, m: nat, n: nat,
      concurrency: nat, u: BreakerRuns.System)
    returns (act: seq<BreakerRuns.Act>, more: nat)
    requires m < n <= |h| && u == SystemAt(k, w, h, p, n - 1) && FailingActs(k, w, h, p, m, concurrency)
    ensures FailingAct(k.breaker, u, act, concurrency, more) && StepBy(k.breaker, u, act) == SystemAt(k, w, h, p, n)
    ensures CallsTo(k, w, h, p, m, n) == CallsTo(k, w, h, p, m, n - 1) + more
  {
    act, more := ActOf(h[n - 1], p), Count(k, w, h, p, n - 1);
  }

  lemma {:induction false} OneMoveMore(k: Settings, w: World, h: seq<Tagged<Move>>, p: string, m: nat, n: nat,
      concurrency: nat, s: BreakerRuns.System, before: seq<BreakerRuns.Act>, u: BreakerRuns.System, sofar: nat)
    returns (acts: seq<BreakerRuns.Act>, t: BreakerRuns.System, calls: nat)
    requires m < n <= |h| && u == SystemAt(k, w, h, p, n - 1) && sofar == CallsTo(k, w, h, p, m, n - 1)
    requires FailingActs(k, w, h, p, m, concurrency) && FailingRun(k.breaker, s, before, u, concurrency, sofar)
    ensures t == SystemAt(k, w, h, p, n) && calls == CallsTo(k, w, h, p, m, n)
    ensures FailingRun(k.breaker, s, acts, t, concurrency, calls)
  {
    var act, more := LastAct(k, w, h, p, m, n, concurrency, u);
    FailingRunOneMore(k.breaker, s, before, u, concurrency, sofar, act, more);
    acts, t, calls := before + act, StepBy(k.breaker, u, act), sofar + more;
  }

  /** What the history from move `m` to move `n` is for the breaker system. */
  lemma {:induction false} CallsAreAdmissions(k: Settings, w: World, h: seq<Tagged<Move>>, p: string, m: nat, n: nat,
      concurrency: nat, s: BreakerRuns.System)
    returns (acts: seq<BreakerRuns.Act>, t: BreakerRuns.System, calls: nat)
    requires m <= n <= |h| && s == SystemAt(k, w, h, p, m) && |s.outstanding| <= concurrency
    requires FailingActs(k, w, h, p, m, concurrency)
    ensures t == SystemAt(k, w, h, p, n) && calls == CallsTo(k, w, h, p, m, n)
    ensures FailingRun(k.breaker, s, acts, t, concurrency, calls)
    decreases n
  {
    if n == m {
      return [], s, 0;
    }
    var before, u, sofar := CallsAreAdmissions(k, w, h, p, m, n - 1, concurrency, s);
    acts, t, calls := OneMoveMore(k, w, h, p, m, n, concurrency, s, before, u, sofar);
  }

  // ---------------------------------------------------------------- the bounds

  /** Half-open calls in the whole reset timeouts of a span. */
  function ProbesIn(c: Config, span: real): int
    requires c.resetTimeout > 0.0
  {
    BreakerRuns.HalfOpenLimit(c) * Periods(span, c.resetTimeout)
  }

  lemma {:induction false} ClosedLoad(c: Config, s: BreakerRuns.System, acts: seq<BreakerRuns.Act>,
      t: BreakerRuns.System, concurrency: nat, calls: nat)
    requires BreakerRuns.CanOpen(c) && c.resetTimeout > 0.0
    requires BreakerRuns.Reachable(c, s) && s.breaker.mode == Closed && FailingRun(c, s, acts, t, concurrency, calls)
    ensures calls <= BreakerRuns.TripStreak(c) - 1 + concurrency + ProbesIn(c, t.now - s.now)
    ensures t.breaker.mode == Closed ==> calls <= BreakerRuns.TripStreak(c) - 1 + concurrency
  {
    BreakerRuns.DeadProviderLoadBound(c, s, acts, concurrency);
  }

  lemma {:induction false} OpenLoad(c: Config, s: BreakerRuns.System, acts: seq<BreakerRuns.Act>,
      t: BreakerRuns.System, concurrency: nat, calls: nat)
    requires c.Usable() && c.resetTimeout > 0.0
    requires BreakerRuns.Reachable(c, s) && s.breaker.mode == Open && FailingRun(c, s, acts, t, concurrency, calls)
    ensures calls <= ProbesIn(c, t.now - s.breaker.openedAt)
  {
    BreakerRuns.OpenBreakerLoadBound(c, s, acts);
  }

  lemma {:induction false} HalfOpenLoad(c: Config, s: BreakerRuns.System, acts: seq<BreakerRuns.Act>,
      t: BreakerRuns.System, concurrency: nat, calls: nat)
    requires c.Usable() && c.resetTimeout > 0.0
    requires BreakerRuns.Reachable(c, s) && s.breaker.mode == HalfOpen && FailingRun(c, s, acts, t, concurrency, calls)
    ensures calls <= ProbesIn(c, t.now - s.now) + BreakerRuns.HalfOpenLimit(c) - s.breaker.halfOpenCalls
  {
    BreakerRuns.HalfOpenLoadBound(c, s, acts);
    OneMorePeriod(BreakerRuns.HalfOpenLimit(c), Periods(t.now - s.now, c.resetTimeout));
  }

  lemma {:induction false} OneMorePeriod(limit: int, periods: int)
    ensures limit * (periods + 1) == limit * periods + limit
  {
  }

  /** What the history from move `m` to move `n` is for the breaker system, with its ends named. */
  lemma {:induction false} DeadBetween(k: Settings, w: World, h: seq<Tagged<Move>>, loops: seq<Begun>, p: string,
      m: nat, n: nat, concurrency: nat)
    returns (s: BreakerRuns.System, acts: seq<BreakerRuns.Act>, t: BreakerRuns.System)
    requires k.breaker.Usable() && w.breakers == map[] && AreLoops(k, w, h, loops) && m <= n <= |h|
    requires FewInProgress(k, w, h, loops, m, concurrency) && ReportsFail(h, p, m)
    ensures BreakerRuns.Reachable(k.breaker, s)
    ensures FailingRun(k.breaker, s, acts, t, concurrency, CallsTo(k, w, h, p, m, n))
    ensures InStep(k, w, h, p, m, s, concurrency) && InStep(k, w, h, p, n, t, concurrency)
  {
    s := SystemAt(k, w, h, p, m);
    SystemInStep(k, w, h, loops, p, m, m, concurrency);
    SystemInStep(k, w, h, loops, p, m, n, concurrency);
    MovesAreActs(k, w, h, loops, p, m, concurrency);
    var calls;
    acts, t, calls := CallsAreAdmissions(k, w, h, p, m, n, concurrency, s);
  }

  /** From the moment a provider with a closed breaker is dead, with at most `concurrency` requests
      in progress, by any later moment it is called at most its trip streak less one plus that many
      times, and after that `halfOpenMax` times per whole reset timeout elapsed. */
  lemma {:induction false} DeadProviderLoadOfRequests(k: Settings, w: World, h: seq<Tagged<Move>>, loops: seq<Begun>,
      p: string, m: nat, n: nat, concurrency: nat)
    requires BreakerRuns.CanOpen(k.breaker) && k.breaker.resetTimeout > 0.0
    requires w.breakers == map[] && AreLoops(k, w, h, loops) && m <= n <= |h|
    requires Lookup(WorldAt(k, w, h, m).breakers, p).mode == Closed && DeadFrom(k, w, h, loops, p, m)
    requires FewInProgress(k, w, h, loops, m, concurrency)
    ensures var calls, streak := CallsTo(k, w, h, p, m, n), BreakerRuns.TripStreak(k.breaker);
            && calls <= streak - 1 + concurrency
                        + ProbesIn(k.breaker, WorldAt(k, w, h, n).now - WorldAt(k, w, h, m).now)
            && (Lookup(WorldAt(k, w, h, n).breakers, p).mode == Closed ==> calls <= streak - 1 + concurrency)
  {
    DeadReportsFail(k, w, h, loops, p, m);
    var s, acts, t := DeadBetween(k, w, h, loops, p, m, n, concurrency);
    ClosedLoad(k.breaker, s, acts, t, concurrency, CallsTo(k, w, h, p, m, n));
  }

  /** The same from a moment at which its breaker is open, however many requests there are. */
  lemma {:induction false} OpenBreakerLoadOfRequests(k: Settings, w: World, h: seq<Tagged<Move>>, loops: seq<Begun>,
      p: string, m: nat, n: nat)
    requires k.breaker.Usable() && k.breaker.resetTimeout > 0.0
    requires w.breakers == map[] && AreLoops(k, w, h, loops) && m <= n <= |h|
    requires Lookup(WorldAt(k, w, h, m).breakers, p).mode == Open && DeadFrom(k, w, h, loops, p, m)
    ensures var b := Lookup(WorldAt(k, w, h, m).breakers, p);
            CallsTo(k, w, h, p, m, n) <= ProbesIn(k.breaker, WorldAt(k, w, h, n).now - b.openedAt)
  {
    DeadReportsFail(k, w, h, loops, p, m);
    AllInProgress(k, w, h, loops, m);
    var s, acts, t := DeadBetween(k, w, h, loops, p, m, n, |loops|);
    OpenLoad(k.breaker, s, acts, t, |loops|, CallsTo(k, w, h, p, m, n));
  }

  /** And from a moment at which it is half open: the calls of this episode count. */
  lemma {:induction false} HalfOpenLoadOfRequests(k: Settings, w: World, h: seq<Tagged<Move>>, loops: seq<Begun>,
      p: string, m: nat, n: nat)
    requires k.breaker.Usable() && k.breaker.resetTimeout > 0.0
    requires w.breakers == map[] && AreLoops(k, w, h, loops) && m <= n <= |h|
    requires Lookup(WorldAt(k, w, h, m).breakers, p).mode == HalfOpen && DeadFrom(k, w, h, loops, p, m)
    ensures var b := Lookup(WorldAt(k, w, h, m).breakers, p);
            CallsTo(k, w, h, p, m, n)
            <= ProbesIn(k.breaker, WorldAt(k, w, h, n).now - WorldAt(k, w, h, m).now)
               + BreakerRuns.HalfOpenLimit(k.breaker) - b.halfOpenCalls
  {
    DeadReportsFail(k, w, h, loops, p, m);
    AllInProgress(k, w, h, loops, m);
    var s, acts, t := DeadBetween(k, w, h, loops, p, m, n, |loops|);
    HalfOpenLoad(k.breaker, s, acts, t, |loops|, CallsTo(k, w, h, p, m, n));
  }

  lemma {:induction false} SizeOfRange(ids: set<nat>, n: nat)
    requires forall id | id in ids :: id < n
    ensures |ids| <= n
  {
    if n == 0 {
      assert ids == {};
    } else {
      SizeOfRange(ids - {n - 1}, n - 1);
      SmallerSet(ids, (ids - {n - 1}) + {n - 1});
    }
  }

  lemma {:induction false} AllInProgress(k: Settings, w: World, h: seq<Tagged<Move>>, loops: seq<Begun>, m: nat)
    ensures FewInProgress(k, w, h, loops, m, |loops|)
  {
    forall n | m <= n <= |h|
      ensures |InProgress(k, w, h, loops, n)| <= |loops|
    {
      SizeOfRange(InProgress(k, w, h, loops, n), |loops|);
    }
  }

  /** Each request ends before the next one starts. */
  ghost predicate OneAfterAnother(k: Settings, w: World, h: seq<Tagged<Move>>, loops: seq<Begun>) {
    forall i, j | 0 <= i < j < |loops| ::
      && loops[i].job.Valid() && loops[i].at <= |h|
      && loops[i].at + |LoopLog(k, w, h, loops[i])| <= loops[j].at
  }

  lemma {:induction false} OneInProgress(k: Settings, w: World, h: seq<Tagged<Move>>, loops: seq<Begun>, n: nat)
    requires OneAfterAnother(k, w, h, loops)
    ensures |InProgress(k, w, h, loops, n)| <= 1
  {
    var busy := InProgress(k, w, h, loops, n);
    if busy != {} {
      var id :| id in busy;
      forall other | other in busy
        ensures other == id
      {
        assert other < id || id < other || other == id;
      }
      assert busy == {id};
    }
  }

  /** Requests one after another, with target lists of any length that may repeat the provider:
      it is called at most its trip streak times before it opens. */
  lemma {:induction false} SequentialLoad(k: Settings, w: World, h: seq<Tagged<Move>>, loops: seq<Begun>, p: string,
      m: nat, n: nat)
    requires BreakerRuns.CanOpen(k.breaker) && k.breaker.resetTimeout > 0.0
    requires w.breakers == map[] && AreLoops(k, w, h, loops) && m <= n <= |h|
    requires Lookup(WorldAt(k, w, h, m).breakers, p).mode == Closed && DeadFrom(k, w, h, loops, p, m)
    requires OneAfterAnother(k, w, h, loops)
    ensures var calls, streak := CallsTo(k, w, h, p, m, n), BreakerRuns.TripStreak(k.breaker);
            && calls <= streak + ProbesIn(k.breaker, WorldAt(k, w, h, n).now - WorldAt(k, w, h, m).now)
            && (Lookup(WorldAt(k, w, h, n).breakers, p).mode == Closed ==> calls <= streak)
  {
    forall i | m <= i <= |h|
      ensures |InProgress(k, w, h, loops, i)| <= 1
    {
      OneInProgress(k, w, h, loops, i);
    }
    DeadProviderLoadOfRequests(k, w, h, loops, p, m, n, 1);
  }
}
