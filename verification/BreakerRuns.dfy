/** One provider's breaker under every interleaving of the requests that share it.
    A request asks for admission, and once admitted holds the breaker until it reports
    one outcome; between the two anything may happen, so outcomes can arrive stale, in
    whatever mode the breaker has reached by then. ExecutorRuns.dfy shows that the two
    fallback loops drive their breakers exactly so. */
module BreakerRuns {
  import opened Prelude
  import opened Breakers

  datatype Act = Tick(dt: real) | Ask(id: nat) | Report(id: nat, ok: bool)

  /** `outstanding`: admitted and not yet reported. `probes`: admitted since the breaker
      last became half-open, and not yet reported. */
  datatype System = System(breaker: Breaker, now: real, outstanding: set<nat>, probes: set<nat>)

  function Initial(now: real): System {
    System(FRESH, now, {}, {})
  }

  predicate Enabled(s: System, a: Act) {
    match a
    case Tick(dt) => dt >= 0.0
    case Ask(id) => id !in s.outstanding
    case Report(id, _) => id in s.outstanding
  }

  predicate Admits(c: Config, s: System) {
    Admission(c, s.breaker, s.now).1
  }

  function Next(c: Config, s: System, a: Act): System
  {
    match a
    case Tick(dt) => s.(now := s.now + dt)
    case Ask(id) =>
      var (b, ok) := Admission(c, s.breaker, s.now);
      var episode := if s.breaker.mode == HalfOpen then s.probes else {};
      System(b, s.now,
             if ok then s.outstanding + {id} else s.outstanding,
             if ok && b.mode == HalfOpen then episode + {id} else episode)
    case Report(id, ok) =>
      System(Breakers.Report(c, s.breaker, ok, s.now), s.now, s.outstanding - {id}, s.probes - {id})
  }

  predicate Legal(c: Config, s: System, acts: seq<Act>)
    decreases |acts|
  {
    acts == [] || (Enabled(s, acts[0]) && Legal(c, Next(c, s, acts[0]), acts[1..]))
  }

  function Run(c: Config, s: System, acts: seq<Act>): System
    decreases |acts|
  {
    if acts == [] then s else Run(c, Next(c, s, acts[0]), acts[1..])
  }

  ghost predicate RunsTo(c: Config, start: real, acts: seq<Act>, s: System)
  {
    Legal(c, Initial(start), acts) && Run(c, Initial(start), acts) == s
  }

  ghost predicate Reachable(c: Config, s: System)
  {
    exists start, acts :: RunsTo(c, start, acts, s)
  }

  lemma {:induction false} RunAppend(c: Config, s: System, xs: seq<Act>, ys: seq<Act>)
    ensures Run(c, s, xs + ys) == Run(c, Run(c, s, xs), ys)
    ensures Legal(c, s, xs + ys) <==> Legal(c, s, xs) && Legal(c, Run(c, s, xs), ys)
    decreases |xs|
  {
    if xs == [] {
      assert xs + ys == ys;
    } else {
      assert (xs + ys)[1..] == xs[1..] + ys;
      RunAppend(c, Next(c, s, xs[0]), xs[1..], ys);
    }
  }

  lemma {:induction false} ReachableNext(c: Config, s: System, a: Act)
    requires Reachable(c, s) && Enabled(s, a)
    ensures Reachable(c, Next(c, s, a))
  {
    var start, acts :| RunsTo(c, start, acts, s);
    RunAppend(c, Initial(start), acts, [a]);
    assert Run(c, s, [a]) == Next(c, s, a);
    assert RunsTo(c, start, acts + [a], Next(c, s, a));
  }

  // ---------------------------------------------------------------- half-open accounting

  function HalfOpenLimit(c: Config): nat {
    if c.halfOpenMax < 0 then 0 else c.halfOpenMax
  }

  /** In a half-open episode the counter is exactly the number of its calls still out. */
  ghost predicate ProbesCounted(c: Config, s: System) {
    s.breaker.mode == HalfOpen ==>
      && s.probes <= s.outstanding
      && |s.probes| == s.breaker.halfOpenCalls <= HalfOpenLimit(c)
      && (c.halfOpenMax >= 1 ==> s.probes != {})
  }

  lemma {:induction false} ProbesCountedNext(c: Config, s: System, a: Act)
    requires ProbesCounted(c, s) && Enabled(s, a)
    ensures ProbesCounted(c, Next(c, s, a))
  {
  }

  lemma {:induction false} ProbesCountedAlong(c: Config, s: System, acts: seq<Act>)
    requires ProbesCounted(c, s) && Legal(c, s, acts)
    ensures ProbesCounted(c, Run(c, s, acts))
    decreases |acts|
  {
    if acts != [] {
      ProbesCountedNext(c, s, acts[0]);
      ProbesCountedAlong(c, Next(c, s, acts[0]), acts[1..]);
    }
  }

  lemma {:induction false} HalfOpenAccounting(c: Config, s: System)
    requires Reachable(c, s)
    ensures ProbesCounted(c, s)
  {
    var start, acts :| RunsTo(c, start, acts, s);
    ProbesCountedAlong(c, Initial(start), acts);
  }

  /** Every refusal has a cause that ends: a cooling-off period still running, or a call
      of the current half-open episode whose report, whatever it says, ends the episode. */
  lemma {:induction false} RefusalHasCause(c: Config, s: System)
    requires Reachable(c, s) && c.halfOpenMax >= 1
    ensures !Admits(c, s) <==>
            || (s.breaker.mode == Open && s.now < s.breaker.openedAt + c.resetTimeout)
            || (s.breaker.mode == HalfOpen && |s.probes| == c.halfOpenMax)
    ensures s.breaker.mode == HalfOpen ==>
              exists id :: id in s.probes && id in s.outstanding
    ensures s.breaker.mode == HalfOpen ==>
              forall id, ok | id in s.outstanding :: Next(c, s, Report(id, ok)).breaker.mode != HalfOpen
  {
    HalfOpenAccounting(c, s);
  }

  /** With no call outstanding, the breaker admits as soon as its cooling-off is over. */
  lemma {:induction false} IdleBreakerAdmits(c: Config, s: System)
    requires Reachable(c, s) && c.halfOpenMax >= 1 && s.outstanding == {}
    ensures Admits(c, s) <==>
            s.breaker.mode == Closed || s.now >= s.breaker.openedAt + c.resetTimeout
  {
    HalfOpenAccounting(c, s);
  }

  // ---------------------------------------------------------------- never wedged, exactly when

  function Later(s: System, dt: real): System {
    s.(now := s.now + dt)
  }

  /** A wedged breaker: nothing is outstanding and no wait makes it admit again. */
  ghost predicate Wedged(c: Config, s: System) {
    s.outstanding == {} && forall dt: real | dt >= 0.0 :: !Admits(c, Later(s, dt))
  }

  /** Whether failures can ever open a breaker so configured. */
  predicate CanOpen(c: Config) {
    1 <= c.windowSize && c.minCalls <= c.windowSize && c.failureThreshold <= 1.0
  }

  lemma {:induction false} AllFalse(w: seq<bool>)
    requires forall i | 0 <= i < |w| :: !w[i]
    ensures Failures(w) == |w|
  {
    if w != [] {
      AllFalse(w[..|w| - 1]);
    }
  }

  lemma {:induction false} NeverTrips(c: Config, w: seq<bool>)
    requires c.Usable() && !CanOpen(c) && (|w| > 0 || c.windowSize == 0) && |w| <= c.windowSize
    ensures !Tripped(c, w)
  {
    if c.failureThreshold > 1.0 && |w| > 0 {
      ScaledAbove(c.failureThreshold, |w|);
    }
  }

  lemma {:induction false} ScaledAbove(x: real, n: nat)
    requires x > 1.0 && n > 0
    ensures Scaled(x, n) > n as real
  {
    if n > 1 {
      ScaledAbove(x, n - 1);
    }
  }

  lemma {:induction false} ClosedForGood(c: Config, s: System, acts: seq<Act>)
    requires c.Usable() && !CanOpen(c) && Legal(c, s, acts)
    requires s.breaker.mode == Closed && |s.breaker.window| <= c.windowSize
    ensures Run(c, s, acts).breaker.mode == Closed
    decreases |acts|
  {
    if acts != [] {
      var next := Next(c, s, acts[0]);
      if acts[0].Report? && !acts[0].ok {
        NeverTrips(c, Push(s.breaker.window, false, c.windowSize));
      }
      ClosedForGood(c, next, acts[1..]);
    }
  }

  /** One failing call after another: either the breaker opens or its window fills with failures. */
  lemma {:induction false} FailuresReach(c: Config, n: nat)
    requires n <= c.windowSize
    ensures exists s ::
              && Reachable(c, s) && s.outstanding == {}
              && (s.breaker.mode == Open || (s.breaker.mode == Closed && |s.breaker.window| == n
                                             && forall i | 0 <= i < n :: !s.breaker.window[i]))
    ensures n == c.windowSize && CanOpen(c) ==>
              exists s :: Reachable(c, s) && s.outstanding == {} && s.breaker.mode == Open
  {
    if n == 0 {
      assert RunsTo(c, 0.0, [], Initial(0.0));
    } else {
      FailuresReach(c, n - 1);
      var s :| Reachable(c, s) && s.outstanding == {}
               && (s.breaker.mode == Open || (s.breaker.mode == Closed && |s.breaker.window| == n - 1
                                              && forall i | 0 <= i < n - 1 :: !s.breaker.window[i]));
      if s.breaker.mode == Closed {
        ReachableNext(c, s, Ask(0));
        var asked := Next(c, s, Ask(0));
        ReachableNext(c, asked, Report(0, false));
        var t := Next(c, asked, Report(0, false));
        assert t.outstanding == {};
        var window := Push(s.breaker.window, false, c.windowSize);
        AllFalse(window);
        assert |window| == n;
        ScaledSign(c.failureThreshold, n);
      }
    }
  }

  /** The breaker can never be wedged exactly when it lets at least one probe through, or
      can never open in the first place. */
  lemma {:induction false} NeverWedgedIff(c: Config)
    requires c.Usable()
    ensures (forall s :: Reachable(c, s) ==> !Wedged(c, s)) <==> c.halfOpenMax >= 1 || !CanOpen(c)
  {
    if c.halfOpenMax >= 1 || !CanOpen(c) {
      forall s | Reachable(c, s)
        ensures !Wedged(c, s)
      {
        HalfOpenAccounting(c, s);
        if c.halfOpenMax < 1 {
          var start, acts :| RunsTo(c, start, acts, s);
          ClosedForGood(c, Initial(start), acts);
        }
        var wait := Max(0.0, s.breaker.openedAt + c.resetTimeout - s.now);
        assert s.outstanding == {} ==> Admits(c, Later(s, wait));
      }
    } else {
      FailuresReach(c, c.windowSize);
      var s :| Reachable(c, s) && s.outstanding == {} && s.breaker.mode == Open;
      var wait := Max(0.0, s.breaker.openedAt + c.resetTimeout - s.now);
      ReachableNext(c, s, Tick(wait));
      var late := Next(c, s, Tick(wait));
      ReachableNext(c, late, Ask(0));
      assert Wedged(c, Next(c, late, Ask(0)));
    }
  }

  // ---------------------------------------------------------------- the rolling window

  /** Outcomes reported since the breaker last closed, oldest first; those that end a
      half-open episode are not among them. */
  function Recorded(c: Config, s: System, acts: seq<Act>, log: seq<bool>): seq<bool>
    decreases |acts|
  {
    if acts == [] then log
    else
      var log' :=
        if !acts[0].Report? then log
        else if s.breaker.mode != HalfOpen then log + [acts[0].ok]
        else if acts[0].ok then []
        else log;
      Recorded(c, Next(c, s, acts[0]), acts[1..], log')
  }

  function LastN(log: seq<bool>, n: nat): seq<bool> {
    if |log| <= n then log else log[|log| - n..]
  }

  lemma {:induction false} WindowIsRecent(c: Config, s: System, acts: seq<Act>, log: seq<bool>)
    requires Legal(c, s, acts) && s.breaker.window == LastN(log, c.windowSize)
    ensures Run(c, s, acts).breaker.window == LastN(Recorded(c, s, acts, log), c.windowSize)
    decreases |acts|
  {
    if acts != [] {
      var a := acts[0];
      var next := Next(c, s, a);
      var log' := if !a.Report? then log
                  else if s.breaker.mode != HalfOpen then log + [a.ok]
                  else if a.ok then [] else log;
      if a.Report? && s.breaker.mode != HalfOpen {
        assert Push(LastN(log, c.windowSize), a.ok, c.windowSize) == LastN(log + [a.ok], c.windowSize);
      }
      WindowIsRecent(c, next, acts[1..], log');
    }
  }

  /** Over any run from the start the deque holds the last `windowSize` recorded outcomes. */
  lemma {:induction false} WindowRefinesHistory(c: Config, start: real, acts: seq<Act>)
    requires Legal(c, Initial(start), acts)
    ensures Run(c, Initial(start), acts).breaker.window
            == LastN(Recorded(c, Initial(start), acts, []), c.windowSize)
  {
    WindowIsRecent(c, Initial(start), acts, []);
  }

  lemma {:induction false} FailuresIsCount(w: seq<bool>)
    ensures Failures(w) == multiset(w)[false]
  {
    if w != [] {
      FailuresIsCount(w[..|w| - 1]);
      assert w == w[..|w| - 1] + [w[|w| - 1]];
    }
  }

  /** Enough outcomes, and a failure rate at or above the threshold. */
  predicate Excessive(c: Config, outcomes: seq<bool>) {
    && outcomes != [] && |outcomes| >= c.minCalls
    && multiset(outcomes)[false] as real / |outcomes| as real >= c.failureThreshold
  }

  lemma {:induction false} TrippedIff(c: Config, outcomes: seq<bool>)
    requires c.Usable() && (outcomes == [] ==> c.minCalls >= 1)
    ensures Tripped(c, outcomes) <==> Excessive(c, outcomes)
  {
    FailuresIsCount(outcomes);
    if outcomes != [] {
      RatioAtLeastScaled(Failures(outcomes) as real, |outcomes|, c.failureThreshold);
    }
  }

  /** What any report does to later admissions. It ends a half-open episode: a success admits at once,
      a failure after another reset timeout. Otherwise a failure that makes the last `windowSize`
      outcomes excessive refuses everyone for a whole reset timeout from now, also when the breaker
      was open already; and every other report changes nothing. */
  lemma {:induction false} AdmissionAfterReport(c: Config, start: real, acts: seq<Act>, id: nat, ok: bool, wait: real)
    requires c.Usable() && Legal(c, Initial(start), acts + [Report(id, ok)])
    ensures var s, t := Run(c, Initial(start), acts), Run(c, Initial(start), acts + [Report(id, ok)]);
            var outcomes := LastN(Recorded(c, Initial(start), acts, []) + [ok], c.windowSize);
            var cooled := wait >= c.resetTimeout && c.halfOpenMax >= 1;
            Admits(c, Later(t, wait)) <==>
            if s.breaker.mode == HalfOpen then ok || cooled
            else if !ok && Excessive(c, outcomes) then cooled
            else Admits(c, Later(s, wait))
  {
    var s := Run(c, Initial(start), acts);
    var log := Recorded(c, Initial(start), acts, []);
    RunAppend(c, Initial(start), acts, [Report(id, ok)]);
    assert Run(c, s, [Report(id, ok)]) == Next(c, s, Report(id, ok));
    WindowRefinesHistory(c, start, acts);
    assert Push(LastN(log, c.windowSize), ok, c.windowSize) == LastN(log + [ok], c.windowSize);
    TrippedIff(c, LastN(log + [ok], c.windowSize));
  }

  lemma {:induction false} FailuresAppend(w: seq<bool>, v: seq<bool>)
    ensures Failures(w + v) == Failures(w) + Failures(v)
    decreases |v|
  {
    if v == [] {
      assert w + v == w;
    } else {
      assert (w + v)[..|w + v| - 1] == w + v[..|v| - 1];
      FailuresAppend(w, v[..|v| - 1]);
    }
  }

  lemma {:induction false} FailuresPush(w: seq<bool>, ok: bool, size: nat)
    requires |w| <= size
    ensures Failures(Push(w, ok, size)) <= Failures(w) + (if ok then 0 else 1)
    ensures |Push(w, ok, size)| == (if |w| < size then |w| + 1 else |w|)
  {
    FailuresAppend(w, [ok]);
    assert Failures([ok]) == if ok then 0 else 1 by {
      assert [ok][..0] == [];
    }
    if |w| == size {
      var full := w + [ok];
      assert full == full[..1] + full[1..];
      FailuresAppend(full[..1], full[1..]);
    }
  }

  predicate BelowRate(c: Config, failures: nat, calls: nat) {
    failures as real < Scaled(c.failureThreshold, calls)
  }

  /** What a closed breaker can look like, even though a success never checks the rate. */
  ghost predicate RateInCheck(c: Config, b: Breaker) {
    && |b.window| <= c.windowSize
    && (b.mode == Closed ==>
          || Failures(b.window) < c.minCalls
          || BelowRate(c, Failures(b.window), |b.window|))
  }

  lemma {:induction false} RateInCheckReport(c: Config, b: Breaker, ok: bool, now: real)
    requires c.minCalls >= 1 && RateInCheck(c, b) && b.mode == Closed
    ensures RateInCheck(c, Breakers.Report(c, b, ok, now))
  {
    var w' := Push(b.window, ok, c.windowSize);
    FailuresPush(b.window, ok, c.windowSize);
    if ok {
      RateAfterSuccess(c, |b.window|, |w'|, Failures(b.window), Failures(w'));
    } else {
      assert Breakers.Report(c, b, ok, now)
             == if Tripped(c, w') then Breaker(Open, w', now, 0) else b.(window := w');
      assert |w'| < c.minCalls ==> Failures(w') < c.minCalls;
    }
  }

  lemma {:induction false} RateInCheckNext(c: Config, s: System, a: Act)
    requires c.minCalls >= 1 && RateInCheck(c, s.breaker) && Enabled(s, a)
    ensures RateInCheck(c, Next(c, s, a).breaker)
  {
    if a.Report? && s.breaker.mode == Closed {
      RateInCheckReport(c, s.breaker, a.ok, s.now);
    }
  }

  lemma {:induction false} RateAfterSuccess(c: Config, n: nat, n': nat, f: nat, f': nat)
    requires f' <= f && n <= n'
    ensures BelowRate(c, f, n) ==> BelowRate(c, f', n')
  {
    if c.failureThreshold <= 0.0 {
      ScaledSign(c.failureThreshold, n);
    } else {
      ScaledGrows(c.failureThreshold, n, n');
    }
  }

  lemma {:induction false} RateInCheckAlong(c: Config, s: System, acts: seq<Act>)
    requires c.minCalls >= 1 && RateInCheck(c, s.breaker) && Legal(c, s, acts)
    ensures RateInCheck(c, Run(c, s, acts).breaker)
    decreases |acts|
  {
    if acts != [] {
      RateInCheckNext(c, s, acts[0]);
      RateInCheckAlong(c, Next(c, s, acts[0]), acts[1..]);
    }
  }

  /** A closed breaker whose failure rate has reached the threshold has recorded fewer
      than `minCalls` failures. */
  lemma {:induction false} ClosedRateInvariant(c: Config, s: System)
    requires c.minCalls >= 1 && Reachable(c, s) && s.breaker.mode == Closed
    ensures |s.breaker.window| <= c.windowSize
    ensures var w := s.breaker.window;
            w != [] && Failures(w) as real / |w| as real >= c.failureThreshold ==> Failures(w) < c.minCalls
  {
    var start, acts :| RunsTo(c, start, acts, s);
    RateInCheckAlong(c, Initial(start), acts);
    var w := s.breaker.window;
    if w != [] {
      RatioAtLeastScaled(Failures(w) as real, |w|, c.failureThreshold);
    }
  }

  const DEFAULTS := Config(0.5, 20, 5, 30.0, 1)

  lemma {:induction false} FourFailures() returns (s: System)
    ensures Reachable(DEFAULTS, s) && s.breaker == Breaker(Closed, [false, false, false, false], 0.0, 0)
    ensures s.outstanding == {}
  {
    s := Initial(0.0);
    assert RunsTo(DEFAULTS, 0.0, [], s);
    for i := 0 to 4
      invariant Reachable(DEFAULTS, s) && s.outstanding == {}
      invariant s.breaker == Breaker(Closed, seq(i, _ => false), 0.0, 0)
    {
      ReachableNext(DEFAULTS, s, Ask(0));
      s := Next(DEFAULTS, s, Ask(0));
      ReachableNext(DEFAULTS, s, Report(0, false));
      s := Next(DEFAULTS, s, Report(0, false));
      assert s.breaker.window == seq(i + 1, _ => false);
    }
  }

  /** Such states do occur: with the default settings, four failures and then a success
      leave a closed breaker at a failure rate of 4/5, threshold 1/2. */
  lemma {:induction false} ClosedAboveThreshold()
    ensures exists s ::
              && Reachable(DEFAULTS, s) && s.breaker.mode == Closed
              && |s.breaker.window| >= DEFAULTS.minCalls
              && !BelowRate(DEFAULTS, Failures(s.breaker.window), |s.breaker.window|)
  {
    var s := FourFailures();
    ReachableNext(DEFAULTS, s, Ask(0));
    var asked := Next(DEFAULTS, s, Ask(0));
    ReachableNext(DEFAULTS, asked, Report(0, true));
    var t := Next(DEFAULTS, asked, Report(0, true));
    assert t.breaker.window == s.breaker.window + [true];
    assert Failures(t.breaker.window) == 4 by {
      AllFalse(s.breaker.window);
      FailuresAppend(s.breaker.window, [true]);
      assert [true][..0] == [];
    }
    assert Scaled(0.5, 5) == 2.5 by {
      ScaledIsProduct(0.5, 5);
    }
  }

  // ---------------------------------------------------------------- load on a dead provider

  function Admitted(c: Config, s: System, acts: seq<Act>): nat
    decreases |acts|
  {
    if acts == [] then 0
    else Asks(c, s, acts[0]) + Admitted(c, Next(c, s, acts[0]), acts[1..])
  }

  function Asks(c: Config, s: System, a: Act): nat {
    if a.Ask? && Admits(c, s) then 1 else 0
  }

  predicate AllFail(acts: seq<Act>) {
    forall i | 0 <= i < |acts| && acts[i].Report? :: !acts[i].ok
  }

  predicate AtMost(c: Config, s: System, acts: seq<Act>, concurrency: nat)
    decreases |acts|
  {
    |s.outstanding| <= concurrency &&
    (acts == [] || AtMost(c, Next(c, s, acts[0]), acts[1..], concurrency))
  }

  /** One more act: counted if it is an admitted ask, within bounds if the state it leads to is. */
  lemma {:induction false} AdmittedAppend(c: Config, s: System, acts: seq<Act>, a: Act, concurrency: nat)
    ensures Admitted(c, s, acts + [a]) == Admitted(c, s, acts) + Asks(c, Run(c, s, acts), a)
    ensures AtMost(c, s, acts, concurrency) && |Run(c, s, acts + [a]).outstanding| <= concurrency ==>
              AtMost(c, s, acts + [a], concurrency)
    decreases |acts|
  {
    var all := acts + [a];
    if acts == [] {
      assert all == [a] && all[1..] == [];
      assert Run(c, s, all) == Run(c, Next(c, s, a), all[1..]);
      assert AtMost(c, s, acts, concurrency) && |Next(c, s, a).outstanding| <= concurrency ==>
               AtMost(c, Next(c, s, all[0]), all[1..], concurrency);
    } else {
      assert all[0] == acts[0] && all[1..] == acts[1..] + [a];
      AdmittedAppend(c, Next(c, s, acts[0]), acts[1..], a, concurrency);
    }
  }

  /** Failures in a row, most recent last. */
  function Streak(window: seq<bool>): (n: nat)
    ensures n <= |window|
  {
    if window == [] || window[|window| - 1] then 0 else 1 + Streak(window[..|window| - 1])
  }

  /** Failures that reach the threshold in a window of any length up to `windowSize`. */
  function RateStreak(c: Config): int {
    Ceiling(Scaled(c.failureThreshold, c.windowSize))
  }

  /** The failures in a row that open any closed breaker with these settings. */
  function TripStreak(c: Config): (k: int)
    requires CanOpen(c)
    ensures 1 <= k <= c.windowSize
    ensures k == 1 || k == c.minCalls || k == RateStreak(c)
  {
    ScaledSign(c.failureThreshold, c.windowSize);
    var k := if c.minCalls < RateStreak(c) then RateStreak(c) else c.minCalls;
    if k < 1 then 1 else k
  }

  lemma {:induction false} StreakFails(w: seq<bool>)
    ensures Streak(w) <= Failures(w)
  {
    if w != [] && !w[|w| - 1] {
      StreakFails(w[..|w| - 1]);
    }
  }

  lemma {:induction false} StreakOfSuffix(w: seq<bool>)
    requires w != []
    ensures Streak(w[1..]) == if Streak(w) == |w| then |w| - 1 else Streak(w)
  {
    if |w| > 1 && !w[|w| - 1] {
      assert w[1..][..|w[1..]| - 1] == w[..|w| - 1][1..];
      StreakOfSuffix(w[..|w| - 1]);
    }
  }

  lemma {:induction false} StreakPush(w: seq<bool>, size: nat)
    requires |w| <= size && Streak(w) < size
    ensures Streak(Push(w, false, size)) == Streak(w) + 1
  {
    var w' := w + [false];
    assert w'[..|w'| - 1] == w;
    if |w| == size {
      StreakOfSuffix(w');
    }
  }

  /** `halfOpenMax` calls in each of `n` cooling-off periods. */
  function Probes(c: Config, n: nat): nat {
    if n == 0 then 0 else HalfOpenLimit(c) + Probes(c, n - 1)
  }

  lemma {:induction false} ProbesIsProduct(c: Config, n: nat)
    ensures Probes(c, n) == HalfOpenLimit(c) * n
  {
    if n > 0 {
      ProbesIsProduct(c, n - 1);
    }
  }

  /** After a breaker has opened, the calls its remaining time allows at most: `n` whole
      cooling-off periods fit between the last opening, or now, and the end. */
  function ProbeBudget(c: Config, s: System, n: nat): int {
    Probes(c, n) + if s.breaker.mode == Open then 0 else HalfOpenLimit(c) - s.breaker.halfOpenCalls
  }

  ghost predicate Fits(c: Config, s: System, end: real, n: nat) {
    end - (if s.breaker.mode == Open then s.breaker.openedAt else s.now) < Scaled(c.resetTimeout, n + 1)
  }

  ghost predicate Opened(c: Config, s: System) {
    && |s.breaker.window| <= c.windowSize
    && (s.breaker.mode == Open ==> s.breaker.openedAt <= s.now)
    && (s.breaker.mode == HalfOpen ==> 0 <= s.breaker.halfOpenCalls <= HalfOpenLimit(c))
  }

  lemma {:induction false} TimeAdvances(c: Config, s: System, acts: seq<Act>)
    requires Legal(c, s, acts)
    ensures s.now <= Run(c, s, acts).now
    decreases |acts|
  {
    if acts != [] {
      TimeAdvances(c, Next(c, s, acts[0]), acts[1..]);
    }
  }

  lemma {:induction false} ProbeBudgetNext(c: Config, s: System, a: Act, end: real, n: nat)
    requires c.resetTimeout > 0.0
    requires s.breaker.mode != Closed && Opened(c, s) && Enabled(s, a) && !(a.Report? && a.ok)
    requires Next(c, s, a).now <= end && Fits(c, s, end, n)
    ensures Next(c, s, a).breaker.mode != Closed && Opened(c, Next(c, s, a))
    ensures s.breaker.mode == Open && Next(c, s, a).breaker.mode == HalfOpen ==>
              n > 0 && Fits(c, Next(c, s, a), end, n - 1)
              && ProbeBudget(c, Next(c, s, a), n - 1) + Asks(c, s, a) <= ProbeBudget(c, s, n)
    ensures !(s.breaker.mode == Open && Next(c, s, a).breaker.mode == HalfOpen) ==>
              Fits(c, Next(c, s, a), end, n)
              && ProbeBudget(c, Next(c, s, a), n) + Asks(c, s, a) <= ProbeBudget(c, s, n)
  {
    assert Scaled(c.resetTimeout, n + 1) == c.resetTimeout + Scaled(c.resetTimeout, n);
  }

  /** From the moment it opens, a provider whose every reported call fails is called at most
      `halfOpenMax` times per elapsed cooling-off period, however many requests race. */
  lemma {:induction false} LoadAfterOpening(c: Config, s: System, acts: seq<Act>, n: nat)
    requires c.resetTimeout > 0.0
    requires s.breaker.mode != Closed && Opened(c, s) && Legal(c, s, acts) && AllFail(acts)
    requires Fits(c, s, Run(c, s, acts).now, n)
    ensures Run(c, s, acts).breaker.mode != Closed
    ensures Admitted(c, s, acts) <= ProbeBudget(c, s, n)
    decreases |acts|
  {
    if acts != [] {
      var t := Next(c, s, acts[0]);
      TimeAdvances(c, t, acts[1..]);
      ProbeBudgetNext(c, s, acts[0], Run(c, s, acts).now, n);
      if s.breaker.mode == Open && t.breaker.mode == HalfOpen {
        LoadAfterOpening(c, t, acts[1..], n - 1);
      } else {
        LoadAfterOpening(c, t, acts[1..], n);
      }
    }
  }

  /** A streak of `k` failures trips the breaker whatever else its window holds. */
  ghost predicate TripsAt(c: Config, k: nat) {
    && 1 <= k <= c.windowSize
    && forall w: seq<bool> | |w| <= c.windowSize && Streak(w) >= k :: Tripped(c, w)
  }

  lemma {:induction false} TripStreakTrips(c: Config)
    requires CanOpen(c)
    ensures TripsAt(c, TripStreak(c))
  {
    forall w: seq<bool> | |w| <= c.windowSize && Streak(w) >= TripStreak(c)
    ensures Tripped(c, w)
    {
      StreakFails(w);
      if c.failureThreshold > 0.0 {
        ScaledGrows(c.failureThreshold, |w|, c.windowSize);
      } else {
        ScaledSign(c.failureThreshold, |w|);
      }
    }
  }

  /** The calls that a closed breaker's streak still allows, less those that are out. */
  function StreakBudget(s: System, k: nat): int {
    k - 1 - Streak(s.breaker.window) - |s.outstanding|
  }

  /** A closed breaker pays for every call with its streak budget, and opens without a call. */
  lemma {:induction false} StreakBudgetNext(c: Config, s: System, a: Act, k: nat)
    requires TripsAt(c, k) && Enabled(s, a) && !(a.Report? && a.ok)
    requires s.breaker.mode == Closed && Opened(c, s) && Streak(s.breaker.window) < k
    ensures Opened(c, Next(c, s, a)) && s.now <= Next(c, s, a).now
    ensures var t := Next(c, s, a);
            if t.breaker.mode == Closed then
              Streak(t.breaker.window) < k && StreakBudget(t, k) + Asks(c, s, a) <= StreakBudget(s, k)
            else
              t.breaker.mode == Open && t.breaker.openedAt == t.now == s.now && Asks(c, s, a) == 0
  {
    if a.Report? {
      StreakPush(s.breaker.window, c.windowSize);
    }
  }

  /** Before opening, every failure reported lengthens the streak; after opening, probes. */
  lemma {:induction false} DeadProviderLoad(c: Config, s: System, acts: seq<Act>, k: nat, concurrency: nat, n: nat)
    requires TripsAt(c, k) && c.resetTimeout > 0.0
    requires s.breaker.mode == Closed && Opened(c, s) && Streak(s.breaker.window) < k
    requires Legal(c, s, acts) && AllFail(acts) && AtMost(c, s, acts, concurrency)
    requires Run(c, s, acts).now - s.now < Scaled(c.resetTimeout, n + 1)
    ensures Admitted(c, s, acts) <= StreakBudget(s, k) + concurrency + Probes(c, n)
    ensures Run(c, s, acts).breaker.mode == Closed ==>
              Admitted(c, s, acts) <= StreakBudget(s, k) + |Run(c, s, acts).outstanding|
    decreases |acts|
  {
    if acts != [] {
      var t := Next(c, s, acts[0]);
      StreakBudgetNext(c, s, acts[0], k);
      if t.breaker.mode == Closed {
        DeadProviderLoad(c, t, acts[1..], k, concurrency, n);
      } else {
        LoadAfterOpening(c, t, acts[1..], n);
      }
    }
  }

  ghost predicate StreakBelow(c: Config, s: System, k: nat) {
    Opened(c, s) && (s.breaker.mode == Closed ==> Streak(s.breaker.window) < k)
  }

  lemma {:induction false} StreakBelowNext(c: Config, s: System, a: Act, k: nat)
    requires TripsAt(c, k) && StreakBelow(c, s, k) && Enabled(s, a)
    ensures StreakBelow(c, Next(c, s, a), k)
  {
    if a.Report? && s.breaker.mode == Closed {
      var w' := Push(s.breaker.window, a.ok, c.windowSize);
      assert a.ok ==> w'[|w'| - 1];
    }
  }

  lemma {:induction false} StreakBelowAlong(c: Config, s: System, acts: seq<Act>, k: nat)
    requires TripsAt(c, k) && StreakBelow(c, s, k) && Legal(c, s, acts)
    ensures StreakBelow(c, Run(c, s, acts), k)
    decreases |acts|
  {
    if acts != [] {
      StreakBelowNext(c, s, acts[0], k);
      StreakBelowAlong(c, Next(c, s, acts[0]), acts[1..], k);
    }
  }

  lemma {:induction false} AtMostAtEnd(c: Config, s: System, acts: seq<Act>, concurrency: nat)
    requires AtMost(c, s, acts, concurrency)
    ensures |Run(c, s, acts).outstanding| <= concurrency
    decreases |acts|
  {
    if acts != [] {
      AtMostAtEnd(c, Next(c, s, acts[0]), acts[1..], concurrency);
    }
  }

  /** From any reachable closed state, however its window looks, with at most `concurrency`
      calls in flight: fewer than `TripStreak(c)` besides those before it opens, then
      `halfOpenMax` per cooling-off period. LoadRuns.dfy says what this means for requests. */
  lemma {:induction false} DeadProviderLoadBound(c: Config, s: System, acts: seq<Act>, concurrency: nat)
    requires CanOpen(c) && c.resetTimeout > 0.0
    requires Reachable(c, s) && s.breaker.mode == Closed
    requires Legal(c, s, acts) && AllFail(acts) && AtMost(c, s, acts, concurrency)
    ensures Admitted(c, s, acts)
            <= TripStreak(c) - 1 + concurrency - |s.outstanding|
               + HalfOpenLimit(c) * Periods(Run(c, s, acts).now - s.now, c.resetTimeout)
    ensures Run(c, s, acts).breaker.mode == Closed ==>
              Admitted(c, s, acts) <= TripStreak(c) - 1 + concurrency - |s.outstanding|
  {
    var start, before :| RunsTo(c, start, before, s);
    TripStreakTrips(c);
    StreakBelowAlong(c, Initial(start), before, TripStreak(c));
    TimeAdvances(c, s, acts);
    var span := Run(c, s, acts).now - s.now;
    PeriodsFit(span, c.resetTimeout);
    DeadProviderLoad(c, s, acts, TripStreak(c), concurrency, Periods(span, c.resetTimeout));
    ProbesIsProduct(c, Periods(span, c.resetTimeout));
    AtMostAtEnd(c, s, acts, concurrency);
  }

  lemma {:induction false} OpenedInThePast(c: Config, s: System, acts: seq<Act>)
    requires Legal(c, s, acts) && (s.breaker.mode == Open ==> s.breaker.openedAt <= s.now)
    ensures var t := Run(c, s, acts); t.breaker.mode == Open ==> t.breaker.openedAt <= t.now
    decreases |acts|
  {
    if acts != [] {
      OpenedInThePast(c, Next(c, s, acts[0]), acts[1..]);
    }
  }

  /** The same from the moment a reachable breaker is found open. */
  lemma {:induction false} OpenBreakerLoadBound(c: Config, s: System, acts: seq<Act>)
    requires c.Usable() && c.resetTimeout > 0.0
    requires Reachable(c, s) && s.breaker.mode == Open
    requires Legal(c, s, acts) && AllFail(acts)
    ensures Admitted(c, s, acts)
            <= HalfOpenLimit(c) * Periods(Run(c, s, acts).now - s.breaker.openedAt, c.resetTimeout)
  {
    var start, before :| RunsTo(c, start, before, s);
    WindowRefinesHistory(c, start, before);
    OpenedInThePast(c, Initial(start), before);
    TimeAdvances(c, s, acts);
    var span := Run(c, s, acts).now - s.breaker.openedAt;
    PeriodsFit(span, c.resetTimeout);
    LoadAfterOpening(c, s, acts, Periods(span, c.resetTimeout));
    ProbesIsProduct(c, Periods(span, c.resetTimeout));
  }

  /** And from the moment it is found half open: the calls this episode has taken already count
      towards its budget. */
  lemma {:induction false} HalfOpenLoadBound(c: Config, s: System, acts: seq<Act>)
    requires c.Usable() && c.resetTimeout > 0.0
    requires Reachable(c, s) && s.breaker.mode == HalfOpen
    requires Legal(c, s, acts) && AllFail(acts)
    ensures Admitted(c, s, acts)
            <= HalfOpenLimit(c) * (Periods(Run(c, s, acts).now - s.now, c.resetTimeout) + 1) - s.breaker.halfOpenCalls
  {
    var start, before :| RunsTo(c, start, before, s);
    WindowRefinesHistory(c, start, before);
    HalfOpenAccounting(c, s);
    TimeAdvances(c, s, acts);
    var span := Run(c, s, acts).now - s.now;
    PeriodsFit(span, c.resetTimeout);
    LoadAfterOpening(c, s, acts, Periods(span, c.resetTimeout));
    ProbesIsProduct(c, Periods(span, c.resetTimeout) + 1);
  }
}
