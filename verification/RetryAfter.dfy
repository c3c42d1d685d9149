/** What a refused client is told, and when the same request would be admitted: the answer of
    the script, the rounded-up header of section 10.2.3 of RFC 9110 (gateway/main.py), and
    the one way in which a tenant's limiter stops answering at all. */
module RetryAfter {
  import opened Prelude
  import opened Limiter
  import opened Ledger

  /** A bucket's level `d` seconds after a check left it at `level`, if nothing touches it in
      between: refilled up to the cap, and full once the key has expired. */
  function LevelAfter(level: real, cap: real, rate: real, ttl: real, d: real): real {
    if d >= ttl then cap else Min(cap, level + Forward(d) * rate)
  }

  /** Whether the same request would be admitted `d` seconds after the state `acct` was written. */
  predicate AdmitsAfter(l: Limits, acct: Account, now: real, server: real, estimate: nat, d: real) {
    var e := Script(l.Ask(now + d, estimate), server + d, LiveAccount(acct, server + d));
    e.Replied? && e.decision.allowed
  }

  /** The state left by a check at time `now` with these levels. */
  ghost predicate Written(l: Limits, acct: Account, now: real, server: real, req: real, tok: real) {
    && acct.req == Hash(req, Some(now), Some(server + l.ttl))
    && acct.tok == Hash(tok, Some(now), Some(server + l.ttl))
    && req <= l.reqCap && tok <= l.tokCap
  }

  /** What a refused check leaves behind: the refilled levels, uncharged, on which it decided. */
  lemma {:induction false} RefusalIsWritten(l: Limits, s: State, now: real, server: real, estimate: nat)
    requires l.Sound() && ReqInRange(l, s) && ClocksAgree(l, s, Check(now, server, estimate))
    requires !Admitted(l, s, Check(now, server, estimate))
    ensures var s' := Next(l, s, Check(now, server, estimate));
            var req, tok := Stock(s'.acct.req, l.reqCap), Stock(s'.acct.tok, l.tokCap);
            && Written(l, s'.acct, now, server, req, tok) && 0.0 <= req
            && Reply(l, s, now, server, estimate) == Replied(Decide(l.Ask(now, estimate), req, tok), s'.acct)
  {
    ReqLevelBound(l, s, Check(now, server, estimate));
  }

  lemma {:induction false} LevelLater(level: real, cap: real, rate: real, ttl: real, now: real, server: real, d: real)
    requires level <= cap
    ensures Level(Live(Hash(level, Some(now), Some(server + ttl)), server + d), cap, rate, now + d)
            == Some(LevelAfter(level, cap, rate, ttl, d))
  {
    assert now + d - now == d;
  }

  lemma {:induction false} AdmitsAfterIff(l: Limits, acct: Account, now: real, server: real, req: real, tok: real,
      estimate: nat, d: real)
    requires l.Sound() && Written(l, acct, now, server, req, tok)
    ensures AdmitsAfter(l, acct, now, server, estimate, d) <==>
            && LevelAfter(req, l.reqCap, l.reqRate, l.ttl, d) >= 1.0
            && LevelAfter(tok, l.tokCap, l.tokRate, l.ttl, d) >= estimate as real
  {
    var args, later := l.Ask(now + d, estimate), LiveAccount(acct, server + d);
    LevelLater(req, l.reqCap, l.reqRate, l.ttl, now, server, d);
    LevelLater(tok, l.tokCap, l.tokRate, l.ttl, now, server, d);
    DecidedOn(args, server + d, later, LevelAfter(req, l.reqCap, l.reqRate, l.ttl, d),
              LevelAfter(tok, l.tokCap, l.tokRate, l.ttl, d));
  }

  lemma {:induction false} DecidedOn(a: Args, server: real, acct: Account, req: real, tok: real)
    requires Level(acct.req, a.reqCap, a.reqRate, a.now) == Some(req)
    requires Level(acct.tok, a.tokCap, a.tokRate, a.now) == Some(tok)
    ensures var e := Script(a, server, acct);
            e.Replied? && (e.decision.allowed <==> req >= a.reqCost && tok >= a.tokCost)
  {
  }

  /** Reaching a level takes exactly the time the script answers. */
  lemma {:induction false} WaitIsExact(level: real, need: real, rate: real, d: real)
    requires rate > 0.0 && level < need
    ensures Wait(need - level, rate) > 0.0
    ensures level + Forward(d) * rate >= need <==> d >= Wait(need - level, rate)
  {
    var wait := (need - level) / rate;
    assert wait * rate == need - level;
    RatioAtLeast(need - level, rate, 0.0);
    if wait <= 0.0 {
      MulMonotone(wait, 0.0, rate);
    }
    RatioAtLeast(need - level, rate, Forward(d));
    if Forward(d) >= wait {
      MulMonotone(wait, Forward(d), rate);
    } else {
      assert (wait - Forward(d)) * rate > 0.0;
    }
  }

  lemma {:induction false} RatePositive(cap: real, rate: real, ttl: real)
    requires cap > 0.0 && rate >= 0.0 && ttl * rate == cap + cap
    ensures rate > 0.0
  {
    assert rate == 0.0 ==> ttl * rate == 0.0;
  }

  /** The wait is at most a key's lifetime unless the bucket is deeper in debt than its cap. */
  lemma {:induction false} WaitWithinTtl(level: real, need: real, cap: real, rate: real, ttl: real)
    requires rate > 0.0 && ttl * rate == cap + cap && level < need <= cap
    ensures Wait(need - level, rate) <= ttl <==> need - level <= cap + cap
  {
    var wait := (need - level) / rate;
    assert wait * rate == need - level;
    if wait <= ttl {
      MulMonotone(wait, ttl, rate);
    } else {
      assert (wait - ttl) * rate > 0.0;
    }
  }

  /** When a bucket that is too low gets high enough, and that one high enough stays so. */
  lemma {:induction false} LevelReaches(level: real, need: real, cap: real, rate: real, ttl: real, d: real)
    requires cap > 0.0 && rate >= 0.0 && ttl * rate == cap + cap && level < need && level <= cap
    ensures LevelAfter(level, cap, rate, ttl, d) >= need <==>
            need <= cap && (d >= Wait(need - level, rate) || d >= ttl)
    ensures need <= cap && need - level <= cap + cap ==> Wait(need - level, rate) <= ttl
  {
    RatePositive(cap, rate, ttl);
    WaitIsExact(level, need, rate, d);
    if need <= cap {
      WaitWithinTtl(level, need, cap, rate, ttl);
    }
  }

  lemma {:induction false} LevelStays(level: real, need: real, cap: real, rate: real, ttl: real, d: real)
    requires rate >= 0.0 && need <= level <= cap
    ensures LevelAfter(level, cap, rate, ttl, d) >= need
  {
    MulMonotone(0.0, Forward(d), rate);
  }

  lemma {:induction false} SlotReturns(l: Limits, req: real, d: real)
    requires l.Sound() && l.reqCap >= 1.0 && 0.0 <= req < 1.0
    ensures LevelAfter(req, l.reqCap, l.reqRate, l.ttl, d) >= 1.0 <==> d >= Wait(1.0 - req, l.reqRate)
  {
    LevelReaches(req, 1.0, l.reqCap, l.reqRate, l.ttl, d);
  }

  lemma {:induction false} TokensStay(l: Limits, tok: real, estimate: nat, d: real)
    requires l.Sound() && estimate as real <= tok <= l.tokCap
    ensures LevelAfter(tok, l.tokCap, l.tokRate, l.ttl, d) >= estimate as real
  {
    LevelStays(tok, estimate as real, l.tokCap, l.tokRate, l.ttl, d);
  }

  lemma {:induction false} RequestsWait(l: Limits, now: real, req: real, tok: real, estimate: nat)
    ensures var d := Decide(l.Ask(now, estimate), req, tok);
            d.blocked == Requests ==> req < 1.0 && estimate as real <= tok && d.retryAfter == Wait(1.0 - req, l.reqRate)
  {
  }

  /** Refused for requests: the same request is admitted exactly from the answered time on. */
  lemma {:induction false} BlockedOnRequests(l: Limits, acct: Account, now: real, server: real, req: real, tok: real,
      estimate: nat, d: real)
    requires l.Sound() && l.reqCap >= 1.0 && Written(l, acct, now, server, req, tok)
    requires 0.0 <= req && Decide(l.Ask(now, estimate), req, tok).blocked == Requests
    ensures AdmitsAfter(l, acct, now, server, estimate, d) <==>
            d >= Decide(l.Ask(now, estimate), req, tok).retryAfter
  {
    RequestsWait(l, now, req, tok, estimate);
    AdmitsAfterIff(l, acct, now, server, req, tok, estimate, d);
    SlotReturns(l, req, d);
    TokensStay(l, tok, estimate, d);
  }

  lemma {:induction false} TokensWait(l: Limits, now: real, req: real, tok: real, estimate: nat)
    ensures var d := Decide(l.Ask(now, estimate), req, tok);
            d.blocked == Tokens ==> tok < estimate as real && d.retryAfter == Wait(estimate as real - tok, l.tokRate)
  {
  }

  lemma {:induction false} TokensReturn(l: Limits, tok: real, estimate: nat, d: real)
    requires l.Sound() && l.tokCap > 0.0 && tok < estimate as real && tok <= l.tokCap
    ensures LevelAfter(tok, l.tokCap, l.tokRate, l.ttl, d) >= estimate as real <==>
            estimate as real <= l.tokCap && (d >= Wait(estimate as real - tok, l.tokRate) || d >= l.ttl)
  {
    LevelReaches(tok, estimate as real, l.tokCap, l.tokRate, l.ttl, d);
  }

  /** Refused for tokens: the answered time is enough for the token bucket alone. The request
      is admitted from then on, or from the key's expiry on if that comes first, provided it
      fits the token capacity at all and the request bucket has a slot by then. */
  lemma {:induction false} BlockedOnTokens(l: Limits, acct: Account, now: real, server: real, req: real, tok: real,
      estimate: nat, d: real)
    requires l.Sound() && l.tokCap > 0.0 && Written(l, acct, now, server, req, tok)
    requires Decide(l.Ask(now, estimate), req, tok).blocked == Tokens
    ensures var wait := Decide(l.Ask(now, estimate), req, tok).retryAfter;
            AdmitsAfter(l, acct, now, server, estimate, d) <==>
              && estimate as real <= l.tokCap && (d >= wait || d >= l.ttl)
              && LevelAfter(req, l.reqCap, l.reqRate, l.ttl, d) >= 1.0
  {
    TokensWait(l, now, req, tok, estimate);
    AdmitsAfterIff(l, acct, now, server, req, tok, estimate, d);
    TokensReturn(l, tok, estimate, d);
  }

  /** So no refused request is admitted early, unless its token debt, with its own cost, is
      deeper than twice the capacity and the key expires first. */
  lemma {:induction false} NeverEarlyUnlessDeepDebt(l: Limits, acct: Account, now: real, server: real, req: real,
      tok: real, estimate: nat, d: real)
    requires l.Sound() && l.tokCap > 0.0 && l.reqCap >= 1.0 && Written(l, acct, now, server, req, tok)
    requires 0.0 <= req && !Decide(l.Ask(now, estimate), req, tok).allowed
    requires d < Decide(l.Ask(now, estimate), req, tok).retryAfter
    requires AdmitsAfter(l, acct, now, server, estimate, d)
    ensures Decide(l.Ask(now, estimate), req, tok).blocked == Tokens
    ensures estimate as real - tok > l.tokCap + l.tokCap && d >= l.ttl
  {
    if Decide(l.Ask(now, estimate), req, tok).blocked == Requests {
      BlockedOnRequests(l, acct, now, server, req, tok, estimate, d);
    } else {
      BlockedOnTokens(l, acct, now, server, req, tok, estimate, d);
      LevelReaches(tok, estimate as real, l.tokCap, l.tokRate, l.ttl, d);
    }
  }

  /** The value of the `Retry-After` header. */
  function Header(retryAfter: real): int {
    var up := Ceiling(retryAfter);
    if up < 1 then 1 else up
  }

  /** It is the least positive whole number of seconds that is no less than the wait. */
  lemma {:induction false} HeaderIsLeast(retryAfter: real, n: int)
    ensures n >= Header(retryAfter) <==> n >= 1 && n as real >= retryAfter
  {
  }

  /** Coming back after the rounded-up number of seconds is enough when requests were short. */
  lemma {:induction false} HeaderSuffices(l: Limits, acct: Account, now: real, server: real, req: real, tok: real,
      estimate: nat)
    requires l.Sound() && l.reqCap >= 1.0 && Written(l, acct, now, server, req, tok)
    requires 0.0 <= req && Decide(l.Ask(now, estimate), req, tok).blocked == Requests
    ensures var d := Decide(l.Ask(now, estimate), req, tok);
            && AdmitsAfter(l, acct, now, server, estimate, Header(d.retryAfter) as real)
            && (Header(d.retryAfter) - 1) as real < Max(d.retryAfter, 1.0)
  {
    BlockedOnRequests(l, acct, now, server, req, tok, estimate,
                      Header(Decide(l.Ask(now, estimate), req, tok).retryAfter) as real);
  }

  /** One request and two tokens per window of two seconds. */
  const SCARCE := Limits(1.0, 0.5, 2.0, 1.0, 4.0)

  const FIRST := Check(0.0, 0.0, 1)
  const SECOND := Check(0.0, 0.0, 2)

  /** What the first of two requests leaves. */
  lemma {:induction false} AfterFirst() returns (s: State)
    ensures s == Next(SCARCE, OPENING, FIRST)
    ensures s.acct == Account(Hash(0.0, Some(0.0), Some(4.0)), Hash(1.0, Some(0.0), Some(4.0)))
  {
    s := Next(SCARCE, OPENING, FIRST);
  }

  /** What the refusal of the second leaves. */
  lemma {:induction false} AfterSecond(s: State) returns (t: State)
    requires s.acct == Account(Hash(0.0, Some(0.0), Some(4.0)), Hash(1.0, Some(0.0), Some(4.0)))
    ensures t == Next(SCARCE, s, SECOND)
    ensures t.acct == s.acct && Reply(SCARCE, s, 0.0, 0.0, 2) == Replied(Decision(false, 1.0, Tokens), t.acct)
  {
    assert Level(s.acct.req, 1.0, 0.5, 0.0) == Some(0.0) && Level(s.acct.tok, 2.0, 1.0, 0.0) == Some(1.0);
    assert Wait(1.0, 1.0) == 1.0;
    t := Next(SCARCE, s, SECOND);
  }

  lemma {:induction false} RunOfTwo(l: Limits, s: State, a: Op, b: Op)
    ensures Run(l, s, [a]) == Next(l, s, a) && Run(l, s, [a, b]) == Next(l, Next(l, s, a), b)
    ensures a.Check? && b.Check? ==> Legal(l, s, [a, b])
  {
    RunCons(l, Next(l, s, a), b, []);
    RunCons(l, s, a, []);
    RunCons(l, s, a, [b]);
    assert [a] + [] == [a] && [b] + [] == [b] && [a] + [b] == [a, b];
  }

  lemma {:induction false} RefusedAgain(acct: Account)
    requires acct == Account(Hash(0.0, Some(0.0), Some(4.0)), Hash(1.0, Some(0.0), Some(4.0)))
    ensures !AdmitsAfter(SCARCE, acct, 0.0, 0.0, 2, 1.0)
  {
    AdmitsAfterIff(SCARCE, acct, 0.0, 0.0, 0.0, 1.0, 2, 1.0);
  }

  /** It need not be when tokens were short: a first request leaves no slot and one token, a second
      is refused for tokens and told to wait one second, and is then refused again. */
  lemma {:induction false} HeaderCanMislead() returns (s: State, t: State, d: Decision)
    ensures SCARCE.Sound() && Legal(SCARCE, OPENING, [FIRST, SECOND])
    ensures s == Run(SCARCE, OPENING, [FIRST]) && t == Run(SCARCE, OPENING, [FIRST, SECOND])
    ensures Reply(SCARCE, s, 0.0, 0.0, 2) == Replied(d, t.acct) && d.blocked == Tokens && 2.0 <= SCARCE.tokCap
    ensures !AdmitsAfter(SCARCE, t.acct, 0.0, 0.0, 2, Header(d.retryAfter) as real)
  {
    s := AfterFirst();
    t := AfterSecond(s);
    d := Decision(false, 1.0, Tokens);
    RunOfTwo(SCARCE, OPENING, FIRST, SECOND);
    RefusedAgain(t.acct);
    assert Header(1.0) == 1;
  }

  // ---------------------------------------------------------------- late corrections

  /** Anything the gateway does to one tenant's buckets, with no discipline assumed. */
  datatype Touch =
    | Checked(args: Args, server: real)
    | Corrected(server: real, actual: int, estimate: int)

  function Touched(acct: Account, t: Touch): Account {
    match t
    case Checked(args, server) =>
      (match Script(args, server, LiveAccount(acct, server))
       case Fault => acct
       case Replied(_, after) => after)
    case Corrected(server, actual, estimate) => Reconciled(acct, server, actual, estimate)
  }

  function TouchedAll(acct: Account, touches: seq<Touch>): Account {
    if touches == [] then acct
    else Touched(TouchedAll(acct, touches[..|touches| - 1]), touches[|touches| - 1])
  }

  /** A token hash that has tokens, no timestamp and no time to live. */
  predicate Broken(acct: Account) {
    acct.tok.Hash? && acct.tok.ts.None? && acct.tok.expires.None?
  }

  predicate Sane(h: Hash) {
    h.Hash? ==> h.ts.Some?
  }

  /** A correction that finds the key expired or never written. */
  predicate Late(acct: Account, t: Touch) {
    t.Corrected? && t.actual != t.estimate && Live(acct.tok, t.server).Absent?
  }

  ghost predicate LateAt(touches: seq<Touch>, i: nat)
    requires i < |touches|
  {
    Late(TouchedAll(Account(Absent, Absent), touches[..i]), touches[i])
  }

  lemma {:induction false} BrokenIffLate(touches: seq<Touch>)
    ensures var acct := TouchedAll(Account(Absent, Absent), touches);
            && Sane(acct.req) && (Sane(acct.tok) || Broken(acct))
            && (Broken(acct) <==> exists i :: 0 <= i < |touches| && LateAt(touches, i))
  {
    if touches != [] {
      var n := |touches| - 1;
      var before := touches[..n];
      BrokenIffLate(before);
      forall i | 0 <= i < n
        ensures LateAt(before, i) == LateAt(touches, i)
      {
        assert before[..i] == touches[..i];
      }
      assert Broken(TouchedAll(Account(Absent, Absent), touches))
             <==> Broken(TouchedAll(Account(Absent, Absent), before)) || LateAt(touches, n);
    }
  }

  /** From then on the script fails on every check, whatever its arguments and however late:
      the tenant is refused for good. It fails in no other case. */
  lemma {:induction false} CheckFaultsIffLate(touches: seq<Touch>, args: Args, server: real)
    ensures Script(args, server, LiveAccount(TouchedAll(Account(Absent, Absent), touches), server)).Fault?
            <==> exists i :: 0 <= i < |touches| && LateAt(touches, i)
  {
    BrokenIffLate(touches);
  }

  /** Such a run exists: a stream outlives the 120 seconds of a key of a 60-second window. */
  lemma {:induction false} LateCorrectionExample()
    ensures exists touches: seq<Touch>, i :: 0 <= i < |touches| && LateAt(touches, i)
  {
    var l := Limits(60.0, 1.0, 600.0, 10.0, 120.0);
    var touches := [Checked(l.Ask(0.0, 100), 0.0), Corrected(121.0, 40, 100)];
    assert touches[..1] == [touches[0]] && touches[..1][..0] == [];
    assert LateAt(touches, 1);
  }
}
