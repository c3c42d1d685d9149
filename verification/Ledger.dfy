/** Whole runs of one tenant's rate limiter: any number of requests in flight between being
    charged an estimate and being settled at their actual usage. Every state is accounted for
    exactly: what is in the bucket, what is reserved or used, and what overflowed the cap
    together make up the capacity plus all that was refilled or given away by an expiry. */
module Ledger {
  import opened Prelude
  import opened Limiter

  /** One tenant's limits, with rates per second and the keys' time to live. */
  datatype Limits = Limits(reqCap: real, reqRate: real, tokCap: real, tokRate: real, ttl: real)
  {
    predicate Sound() {
      && reqCap >= 0.0 && reqRate >= 0.0 && tokCap >= 0.0 && tokRate >= 0.0 && ttl > 0.0
      && ttl * reqRate == reqCap + reqCap && ttl * tokRate == tokCap + tokCap
    }

    function Ask(now: real, estimate: nat): Args {
      Args(now, reqCap, reqRate, 1.0, tokCap, tokRate, estimate as real, ttl)
    }
  }

  function LimitsOf(t: Tenant, windowS: int): Limits
    requires windowS > 0
  {
    var w := windowS as real;
    Limits(t.requestsPerMin as real, t.requestsPerMin as real / w,
           t.tokensPerMin as real, t.tokensPerMin as real / w, w * 2.0)
  }

  /** What the limiter passes to its script are these limits, and a key lives two windows:
      twice the time in which an empty bucket fills up. */
  lemma {:induction false} LimitsAreSound(t: Tenant, windowS: int, now: real, estimate: nat)
    requires windowS > 0 && t.requestsPerMin >= 0 && t.tokensPerMin >= 0
    ensures LimitsOf(t, windowS).Sound()
    ensures ArgsFor(t, windowS, now, estimate) == LimitsOf(t, windowS).Ask(now, estimate)
  {
    var w := windowS as real;
    RateFillsTwice(t.requestsPerMin as real, w);
    RateFillsTwice(t.tokensPerMin as real, w);
  }

  lemma {:induction false} RateFillsTwice(cap: real, w: real)
    requires cap >= 0.0 && w > 0.0
    ensures cap / w >= 0.0 && w * 2.0 * (cap / w) == cap + cap
  {
    var rate := cap / w;
    assert rate * w == cap;
    DivMonotone(0.0, cap, w);
  }

  /** A request is known by its place in the order of admissions. */
  datatype Op =
    | Check(now: real, server: real, estimate: nat)
    | Settle(server: real, id: nat, actual: int)

  datatype Entry = Reserved(estimate: nat) | Settled(estimate: nat, actual: int)

  /** What a request is charged at present. */
  function Charge(e: Entry): int {
    match e
    case Reserved(estimate) => estimate
    case Settled(_, actual) => actual
  }

  function Total(entries: seq<Entry>): int {
    if entries == [] then 0 else Total(entries[..|entries| - 1]) + Charge(entries[|entries| - 1])
  }

  function Excess(e: Entry): nat {
    if e.Settled? && e.actual > e.estimate then e.actual - e.estimate else 0
  }

  /** By how much the settled requests were under-estimated. */
  function UnderEstimated(entries: seq<Entry>): nat {
    if entries == [] then 0 else UnderEstimated(entries[..|entries| - 1]) + Excess(entries[|entries| - 1])
  }

  /** `clock`: the time of the last check. `forward`: how far the clock has moved forward from
      check to check, backward steps not counted. `tokRefill`, `reqRefill`: what that was worth
      (RefillIsRate). `spilled`: tokens lost at the cap. `given`: tokens that expiries of the
      token key gave away. */
  datatype State = State(
    acct: Account,
    entries: seq<Entry>,
    clock: Option<real>,
    forward: real,
    tokRefill: real,
    reqRefill: real,
    spilled: real,
    given: real)

  const OPENING := State(Account(Absent, Absent), [], None, 0.0, 0.0, 0.0, 0.0, 0.0)

  function Stock(h: Hash, cap: real): real {
    if h.Hash? then h.tokens else cap
  }

  function Since(s: State, now: real): real {
    if s.clock.Some? then Forward(now - s.clock.value) else 0.0
  }

  function Reply(l: Limits, s: State, now: real, server: real, estimate: nat): Effect {
    Script(l.Ask(now, estimate), server, LiveAccount(s.acct, server))
  }

  predicate Admitted(l: Limits, s: State, op: Op) {
    op.Check? && var e := Reply(l, s, op.now, op.server, op.estimate); e.Replied? && e.decision.allowed
  }

  function TokLevel(l: Limits, s: State, now: real, server: real): real {
    Level(Live(s.acct.tok, server), l.tokCap, l.tokRate, now).GetOr(l.tokCap)
  }

  /** What the token bucket would hold by now if it neither overflowed nor expired. */
  function Swelled(l: Limits, s: State, now: real): real {
    Stock(s.acct.tok, l.tokCap) + Since(s, now) * l.tokRate
  }

  /** What is lost at the cap. */
  function Overflow(l: Limits, s: State, op: Op): real {
    if op.Check? then Max(0.0, Swelled(l, s, op.now) - l.tokCap) else 0.0
  }

  /** What an expired key, which starts full again, gives away beyond the refill. */
  function Gift(l: Limits, s: State, op: Op): real {
    if op.Check? && Expired(s.acct.tok, op.server) then Max(0.0, l.tokCap - Swelled(l, s, op.now)) else 0.0
  }

  function Next(l: Limits, s: State, op: Op): State {
    match op
    case Check(now, server, estimate) =>
      (match Reply(l, s, now, server, estimate)
       case Fault => s
       case Replied(d, after) =>
         var moved := Since(s, now);
         var refill := moved * l.tokRate;
         State(after, if d.allowed then s.entries + [Reserved(estimate)] else s.entries,
               Some(now), s.forward + moved, s.tokRefill + refill, s.reqRefill + moved * l.reqRate,
               s.spilled + Overflow(l, s, op), s.given + Gift(l, s, op)))
    case Settle(server, id, actual) =>
      if id < |s.entries| then
        var estimate := s.entries[id].estimate;
        s.(acct := Reconciled(s.acct, server, actual, estimate), entries := s.entries[id := Settled(estimate, actual)])
      else s
  }

  /** Both hashes exist and carry the time of the last check, or there has been none. */
  predicate InStep(s: State) {
    match s.clock
    case None => s.acct == Account(Absent, Absent)
    case Some(t) => s.acct.req.Hash? && s.acct.tok.Hash? && s.acct.req.ts == s.acct.tok.ts == Some(t)
  }

  /** A request is settled at most once, and a correction that is not zero finds the key live. */
  predicate Enabled(s: State, op: Op) {
    match op
    case Check(_, _, _) => true
    case Settle(server, id, actual) =>
      && id < |s.entries| && s.entries[id].Reserved?
      && (actual != s.entries[id].estimate ==> Live(s.acct.tok, server).Hash?)
  }

  predicate Legal(l: Limits, s: State, ops: seq<Op>)
    decreases |ops|
  {
    ops == [] || (Enabled(s, ops[0]) && Legal(l, Next(l, s, ops[0]), ops[1..]))
  }

  function Run(l: Limits, s: State, ops: seq<Op>): State
    decreases |ops|
  {
    if ops == [] then s else Run(l, Next(l, s, ops[0]), ops[1..])
  }

  // ---------------------------------------------------------------- conservation

  function Balance(l: Limits, s: State): real {
    Stock(s.acct.tok, l.tokCap) + Total(s.entries) as real + s.spilled - s.tokRefill - s.given
  }

  lemma {:induction false} TotalUpdate(entries: seq<Entry>, id: nat, e: Entry)
    requires id < |entries|
    ensures Total(entries[id := e]) == Total(entries) - Charge(entries[id]) + Charge(e)
    ensures UnderEstimated(entries[id := e]) == UnderEstimated(entries) - Excess(entries[id]) + Excess(e)
  {
    var n := |entries| - 1;
    if id == n {
      assert entries[id := e][..n] == entries[..n];
    } else {
      assert entries[id := e][..n] == entries[..n][id := e];
      TotalUpdate(entries[..n], id, e);
    }
  }

  lemma {:induction false} TotalAppend(entries: seq<Entry>, e: Entry)
    ensures Total(entries + [e]) == Total(entries) + Charge(e)
    ensures UnderEstimated(entries + [e]) == UnderEstimated(entries) + Excess(e)
  {
    assert (entries + [e])[..|entries|] == entries;
  }

  /** What a check does to the token bucket, whatever it decides. */
  lemma {:induction false} CheckCharges(l: Limits, s: State, op: Op)
    requires InStep(s) && op.Check?
    ensures var s' := Next(l, s, op);
            var level := TokLevel(l, s, op.now, op.server);
            && Reply(l, s, op.now, op.server, op.estimate).Replied?
            && s'.acct.tok.Hash? && s'.acct.tok.ts == s'.acct.req.ts == s'.clock == Some(op.now)
            && s'.acct.tok.tokens == (if Admitted(l, s, op) then level - op.estimate as real else level)
            && (Admitted(l, s, op) ==> level >= op.estimate as real)
  {
  }

  /** The level the script works with: swelled, less what is lost, plus what is given away. */
  lemma {:induction false} LevelAccounts(l: Limits, s: State, op: Op)
    requires InStep(s) && op.Check?
    ensures TokLevel(l, s, op.now, op.server) == Swelled(l, s, op.now) - Overflow(l, s, op) + Gift(l, s, op)
  {
  }

  lemma {:induction false} CheckBooks(l: Limits, s: State, op: Op)
    requires InStep(s) && op.Check?
    ensures var s' := Next(l, s, op);
            && s'.spilled == s.spilled + Overflow(l, s, op) && s'.given == s.given + Gift(l, s, op)
            && s'.tokRefill == s.tokRefill + Swelled(l, s, op.now) - Stock(s.acct.tok, l.tokCap)
            && s'.entries == if Admitted(l, s, op) then s.entries + [Reserved(op.estimate)] else s.entries
  {
  }

  lemma {:induction false} BalanceOfCheck(l: Limits, s: State, op: Op)
    requires InStep(s) && op.Check?
    ensures InStep(Next(l, s, op)) && Balance(l, Next(l, s, op)) == Balance(l, s)
  {
    CheckCharges(l, s, op);
    LevelAccounts(l, s, op);
    CheckBooks(l, s, op);
    TotalAppend(s.entries, Reserved(op.estimate));
  }

  lemma {:induction false} BalanceNext(l: Limits, s: State, op: Op)
    requires InStep(s) && Enabled(s, op)
    ensures InStep(Next(l, s, op)) && Balance(l, Next(l, s, op)) == Balance(l, s)
  {
    if op.Check? {
      BalanceOfCheck(l, s, op);
    } else {
      TotalUpdate(s.entries, op.id, Settled(s.entries[op.id].estimate, op.actual));
    }
  }

  lemma {:induction false} BalanceAlong(l: Limits, s: State, ops: seq<Op>)
    requires InStep(s) && Legal(l, s, ops)
    ensures InStep(Run(l, s, ops)) && Balance(l, Run(l, s, ops)) == Balance(l, s)
    decreases |ops|
  {
    if ops != [] {
      BalanceNext(l, s, ops[0]);
      BalanceAlong(l, Next(l, s, ops[0]), ops[1..]);
    }
  }

  /** Capacity plus refill, and what expiries gave away. */
  function Budget(l: Limits, s: State): real {
    l.tokCap + s.tokRefill + s.given
  }

  /** Conservation: at every moment of every run, bucket level + charges + overflow equals
      capacity + refill + gifts, whichever way the clock steps and however settlements
      interleave. Overflow and gifts are what lies above and below the cap before the script
      runs, so this says what the script does with them. */
  lemma {:induction false} Conservation(l: Limits, ops: seq<Op>)
    requires Legal(l, OPENING, ops)
    ensures var s := Run(l, OPENING, ops);
            Stock(s.acct.tok, l.tokCap) + Total(s.entries) as real + s.spilled == Budget(l, s)
  {
    BalanceAlong(l, OPENING, ops);
  }

  predicate AtRate(l: Limits, s: State) {
    s.tokRefill == s.forward * l.tokRate && s.reqRefill == s.forward * l.reqRate
  }

  lemma {:induction false} AtRateNext(l: Limits, s: State, op: Op)
    requires AtRate(l, s)
    ensures AtRate(l, Next(l, s, op))
  {
    if op.Check? {
      SumTimesRate(s.forward, Since(s, op.now), l.tokRate);
      SumTimesRate(s.forward, Since(s, op.now), l.reqRate);
    }
  }

  lemma {:induction false} SumTimesRate(x: real, y: real, rate: real)
    ensures (x + y) * rate == x * rate + y * rate
  {
  }

  /** The refill is the rate times the clock's forward movement. */
  lemma {:induction false} RefillIsRate(l: Limits, s: State, ops: seq<Op>)
    requires AtRate(l, s)
    ensures AtRate(l, Run(l, s, ops))
    decreases |ops|
  {
    if ops != [] {
      AtRateNext(l, s, ops[0]);
      RefillIsRate(l, Next(l, s, ops[0]), ops[1..]);
    }
  }

  // ---------------------------------------------------------------- expiry

  /** An expired key starts full again; that gives away more than the refill would have. */
  predicate Forgives(l: Limits, s: State, op: Op) {
    op.Check? && Expired(s.acct.tok, op.server) && Swelled(l, s, op.now) < l.tokCap
  }

  /** A step makes more of stock and charges than the refill does exactly when it forgives debt; the
      ledger counts it as a gift. Losses and gifts only add up. */
  lemma {:induction false} GivesAwayIff(l: Limits, s: State, op: Op)
    requires InStep(s) && Enabled(s, op)
    ensures var s' := Next(l, s, op);
            && (Stock(s'.acct.tok, l.tokCap) + Total(s'.entries) as real
                > Stock(s.acct.tok, l.tokCap) + Total(s.entries) as real + s'.tokRefill - s.tokRefill
                <==> Forgives(l, s, op))
            && (s'.given > s.given <==> Forgives(l, s, op))
            && s'.spilled >= s.spilled && s'.given >= s.given
  {
    BalanceNext(l, s, op);
    if op.Check? {
      CheckCharges(l, s, op);
      CheckBooks(l, s, op);
    }
  }

  /** The gateway's clock has seen a key's whole time to live pass when Redis expires it. */
  predicate ClocksAgree(l: Limits, s: State, op: Op) {
    op.Check? ==>
      && (Expired(s.acct.tok, op.server) ==> Since(s, op.now) >= l.ttl)
      && (Expired(s.acct.req, op.server) ==> Since(s, op.now) >= l.ttl)
  }

  lemma {:induction false} FullAfterTtl(cap: real, rate: real, ttl: real, moved: real)
    requires rate >= 0.0 && ttl * rate == cap + cap && moved >= ttl
    ensures moved * rate >= cap + cap
  {
    MulMonotone(ttl, moved, rate);
  }

  /** Expiry is a full refill for every level down to one capacity of debt, since a key
      outlives two windows; a key read exactly at its expiry forgives all deeper debt. */
  lemma {:induction false} ForgivesOnlyDeepDebt(l: Limits, s: State, op: Op)
    requires l.Sound() && InStep(s) && ClocksAgree(l, s, op) && op.Check? && Expired(s.acct.tok, op.server)
    ensures Forgives(l, s, op) ==> Stock(s.acct.tok, l.tokCap) < -l.tokCap
    ensures Since(s, op.now) == l.ttl ==> (Forgives(l, s, op) <==> Stock(s.acct.tok, l.tokCap) < -l.tokCap)
  {
    FullAfterTtl(l.tokCap, l.tokRate, l.ttl, Since(s, op.now));
  }

  ghost predicate NeverForgives(l: Limits, s: State, ops: seq<Op>)
    decreases |ops|
  {
    ops == [] || (!Forgives(l, s, ops[0]) && NeverForgives(l, Next(l, s, ops[0]), ops[1..]))
  }

  /** Along a run losses and gifts only add up, and nothing is given away exactly when no expiry
      forgives. */
  lemma {:induction false} GivenAlong(l: Limits, s: State, ops: seq<Op>)
    requires InStep(s) && Legal(l, s, ops)
    ensures Run(l, s, ops).spilled >= s.spilled && Run(l, s, ops).given >= s.given
    ensures Run(l, s, ops).given == s.given <==> NeverForgives(l, s, ops)
    decreases |ops|
  {
    if ops != [] {
      BalanceNext(l, s, ops[0]);
      GivesAwayIff(l, s, ops[0]);
      GivenAlong(l, Next(l, s, ops[0]), ops[1..]);
    }
  }

  lemma {:induction false} NoGiftsIff(l: Limits, ops: seq<Op>)
    requires Legal(l, OPENING, ops)
    ensures Run(l, OPENING, ops).given >= 0.0
    ensures Run(l, OPENING, ops).given == 0.0 <==> NeverForgives(l, OPENING, ops)
  {
    GivenAlong(l, OPENING, ops);
  }

  const TIGHT := Limits(1.0, 1.0, 10.0, 10.0, 2.0)

  /** A request admitted for nothing uses ten times the capacity; when its key expires, the debt
      that two windows' refill has not paid is forgiven. */
  const FORGIVEN_RUN := [Check(0.0, 0.0, 0), Settle(0.0, 0, 100), Check(2.0, 2.0, 0)]

  lemma {:induction false} RunCons(l: Limits, s: State, op: Op, ops: seq<Op>)
    ensures Run(l, s, [op] + ops) == Run(l, Next(l, s, op), ops)
    ensures Legal(l, s, [op] + ops) <==> Enabled(s, op) && Legal(l, Next(l, s, op), ops)
  {
    assert ([op] + ops)[1..] == ops;
  }

  lemma {:induction false} RunOfThree(l: Limits, s: State, a: Op, b: Op, c: Op)
    ensures Run(l, s, [a, b, c]) == Next(l, Next(l, Next(l, s, a), b), c)
    ensures Enabled(s, a) && Enabled(Next(l, s, a), b) && Enabled(Next(l, Next(l, s, a), b), c) ==>
              Legal(l, s, [a, b, c])
  {
    var s1 := Next(l, s, a);
    RunCons(l, Next(l, s1, b), c, []);
    RunCons(l, s1, b, [c]);
    RunCons(l, s, a, [b, c]);
    assert [c] + [] == [c] && [b] + [c] == [b, c] && [a] + [b, c] == [a, b, c];
  }

  lemma {:induction false} GivenOfThree(l: Limits, a: Op, b: Op, c: Op)
    requires var s1 := Next(l, OPENING, a);
             var s2 := Next(l, s1, b);
             && Enabled(OPENING, a) && Enabled(s1, b) && c.Check? && InStep(s2) && s2.given == 0.0
    ensures Legal(l, OPENING, [a, b, c])
    ensures Run(l, OPENING, [a, b, c]).given == Gift(l, Next(l, Next(l, OPENING, a), b), c)
  {
    RunOfThree(l, OPENING, a, b, c);
    CheckBooks(l, Next(l, Next(l, OPENING, a), b), c);
  }

  lemma {:induction false} ForgivenExample()
    ensures TIGHT.Sound() && Legal(TIGHT, OPENING, FORGIVEN_RUN)
    ensures Run(TIGHT, OPENING, FORGIVEN_RUN).given == 80.0
    ensures !NeverForgives(TIGHT, OPENING, FORGIVEN_RUN)
  {
    var s2 := AfterDebt();
    GivenOfThree(TIGHT, Check(0.0, 0.0, 0), Settle(0.0, 0, 100), Check(2.0, 2.0, 0));
    NoGiftsIff(TIGHT, FORGIVEN_RUN);
  }

  lemma {:induction false} AfterUse() returns (s: State)
    ensures s == Next(TIGHT, OPENING, FORGIVEN_RUN[0])
    ensures s.acct.tok == Hash(10.0, Some(0.0), Some(2.0)) && s.acct.req.Hash?
    ensures s.entries == [Reserved(0)] && s.clock == Some(0.0) && s.given == 0.0
  {
    s := Next(TIGHT, OPENING, FORGIVEN_RUN[0]);
  }

  lemma {:induction false} AfterDebt() returns (s: State)
    ensures s == Next(TIGHT, Next(TIGHT, OPENING, FORGIVEN_RUN[0]), FORGIVEN_RUN[1])
    ensures Enabled(Next(TIGHT, OPENING, FORGIVEN_RUN[0]), FORGIVEN_RUN[1])
    ensures InStep(s) && s.given == 0.0 && Gift(TIGHT, s, FORGIVEN_RUN[2]) == 80.0
  {
    var s1 := AfterUse();
    s := Next(TIGHT, s1, FORGIVEN_RUN[1]);
    assert s.acct.tok == Hash(-90.0, Some(0.0), Some(2.0));
    assert s.acct.req == s1.acct.req && Expired(s.acct.tok, 2.0);
    assert InStep(s1) && InStep(s);
    assert Since(s, 2.0) == 2.0;
  }

  // ---------------------------------------------------------------- budget bounds

  ghost predicate InDebtByExcess(l: Limits, s: State) {
    Stock(s.acct.tok, l.tokCap) >= -(UnderEstimated(s.entries) as real)
  }

  lemma {:induction false} DebtNext(l: Limits, s: State, op: Op)
    requires l.Sound() && InStep(s) && Enabled(s, op) && InDebtByExcess(l, s)
    ensures InDebtByExcess(l, Next(l, s, op))
  {
    match op
    case Check(now, server, estimate) =>
      CheckCharges(l, s, op);
      TotalAppend(s.entries, Reserved(estimate));
      MulMonotone(0.0, Since(s, now), l.tokRate);
    case Settle(server, id, actual) =>
      TotalUpdate(s.entries, id, Settled(s.entries[id].estimate, actual));
  }

  lemma {:induction false} DebtAlong(l: Limits, s: State, ops: seq<Op>)
    requires l.Sound() && InStep(s) && Legal(l, s, ops) && InDebtByExcess(l, s)
    ensures InDebtByExcess(l, Run(l, s, ops))
    decreases |ops|
  {
    if ops != [] {
      BalanceNext(l, s, ops[0]);
      DebtNext(l, s, ops[0]);
      DebtAlong(l, Next(l, s, ops[0]), ops[1..]);
    }
  }

  /** The capacity, the rate times the clock's forward movement, and what expiries gave away. */
  function Granted(l: Limits, s: State): real {
    l.tokCap + s.forward * l.tokRate + s.given
  }

  /** The token ledger: bucket level, reservations and actual usage together never exceed what was
      granted. */
  lemma {:induction false} TokenLedger(l: Limits, ops: seq<Op>)
    requires Legal(l, OPENING, ops)
    ensures var s := Run(l, OPENING, ops);
            Stock(s.acct.tok, l.tokCap) + Total(s.entries) as real <= Granted(l, s)
  {
    Conservation(l, ops);
    GivenAlong(l, OPENING, ops);
    RefillIsRate(l, OPENING, ops);
  }

  /** All that requests are charged, reservations and actual usage, exceeds the budget by at most
      what the settled requests were under-estimated. */
  lemma {:induction false} UsageBound(l: Limits, ops: seq<Op>)
    requires l.Sound() && Legal(l, OPENING, ops)
    ensures var s := Run(l, OPENING, ops);
            Total(s.entries) as real <= Budget(l, s) + UnderEstimated(s.entries) as real
  {
    Conservation(l, ops);
    GivenAlong(l, OPENING, ops);
    DebtAlong(l, OPENING, ops);
  }

  /** At the moment a request is admitted, everything charged fits the budget, however badly
      earlier requests were estimated. */
  lemma {:induction false} AdmissionFits(l: Limits, ops: seq<Op>, op: Op)
    requires l.Sound() && Legal(l, OPENING, ops) && Admitted(l, Run(l, OPENING, ops), op)
    ensures var s := Next(l, Run(l, OPENING, ops), op);
            Total(s.entries) as real <= Budget(l, s)
  {
    var before := Run(l, OPENING, ops);
    BalanceAlong(l, OPENING, ops);
    GivenAlong(l, OPENING, ops);
    BalanceNext(l, before, op);
    GivesAwayIff(l, before, op);
    CheckCharges(l, before, op);
  }

  // ---------------------------------------------------------------- a frozen clock

  predicate Frozen(l: Limits, s: State, ops: seq<Op>, t: real)
    decreases |ops|
  {
    ops != [] ==>
      && (ops[0].Check? ==> ops[0].now == t && !Expired(s.acct.tok, ops[0].server))
      && (ops[0].Settle? ==> ops[0].actual >= 0)
      && Frozen(l, Next(l, s, ops[0]), ops[1..], t)
  }

  ghost predicate ChargesCounted(l: Limits, s: State, t: real) {
    && InStep(s) && s.clock.GetOr(t) == t
    && Stock(s.acct.tok, l.tokCap) == l.tokCap - Total(s.entries) as real
    && forall i | 0 <= i < |s.entries| :: Charge(s.entries[i]) >= 0
  }

  lemma {:induction false} TotalNonNegative(entries: seq<Entry>)
    requires forall i | 0 <= i < |entries| :: Charge(entries[i]) >= 0
    ensures Total(entries) >= 0
  {
    if entries != [] {
      TotalNonNegative(entries[..|entries| - 1]);
    }
  }

  lemma {:induction false} FrozenLevel(l: Limits, s: State, now: real, server: real)
    requires InStep(s) && s.clock.GetOr(now) == now && !Expired(s.acct.tok, server)
    requires Stock(s.acct.tok, l.tokCap) <= l.tokCap
    ensures TokLevel(l, s, now, server) == Stock(s.acct.tok, l.tokCap)
  {
  }

  lemma {:induction false} CountedAfterCheck(l: Limits, before: State, s: State, more: seq<Entry>, t: real)
    requires |more| <= 1 && forall i | 0 <= i < |more| :: Charge(more[i]) >= 0
    requires forall i | 0 <= i < |before.entries| :: Charge(before.entries[i]) >= 0
    requires InStep(s) && s.clock == Some(t) && s.entries == before.entries + more
    requires s.acct.tok.tokens == l.tokCap - Total(before.entries) as real - Total(more) as real
    ensures ChargesCounted(l, s, t)
  {
    if more == [] {
      assert s.entries == before.entries;
    } else {
      assert more == [more[0]] && more[..0] == [];
      TotalAppend(before.entries, more[0]);
    }
  }

  /** A check at a frozen clock decides on the level that was left. */
  lemma {:induction false} FrozenDecision(l: Limits, s: State, op: Op) returns (next: State, more: seq<Entry>)
    requires l.Sound() && op.Check? && ChargesCounted(l, s, op.now) && !Expired(s.acct.tok, op.server)
    ensures next == Next(l, s, op) && InStep(next) && next.clock == Some(op.now)
    ensures more == (if Admitted(l, s, op) then [Reserved(op.estimate)] else []) && next.entries == s.entries + more
    ensures next.acct.tok.tokens == l.tokCap - Total(s.entries) as real - Total(more) as real
  {
    TotalNonNegative(s.entries);
    FrozenLevel(l, s, op.now, op.server);
    CheckCharges(l, s, op);
    CheckBooks(l, s, op);
    BalanceOfCheck(l, s, op);
    next := Next(l, s, op);
    more := if Admitted(l, s, op) then [Reserved(op.estimate)] else [];
    TotalOfOne(Reserved(op.estimate));
  }

  lemma {:induction false} TotalOfOne(e: Entry)
    ensures Total([e]) == Charge(e) && Total([]) == 0
  {
    assert [e][..0] == [];
  }

  lemma {:induction false} FrozenCheck(l: Limits, s: State, op: Op)
    requires l.Sound() && op.Check? && ChargesCounted(l, s, op.now) && !Expired(s.acct.tok, op.server)
    ensures ChargesCounted(l, Next(l, s, op), op.now)
  {
    var next, more := FrozenDecision(l, s, op);
    CountedAfterCheck(l, s, next, more, op.now);
  }

  lemma {:induction false} FrozenSettle(l: Limits, s: State, op: Op, t: real)
    requires ChargesCounted(l, s, t) && Enabled(s, op) && op.Settle? && op.actual >= 0
    ensures ChargesCounted(l, Next(l, s, op), t)
  {
    TotalUpdate(s.entries, op.id, Settled(s.entries[op.id].estimate, op.actual));
  }

  /** With the clock standing still nothing is refilled or lost: the bucket is short of its
      capacity by exactly what the requests are charged. */
  lemma {:induction false} ExactWhenFrozen(l: Limits, s: State, ops: seq<Op>, t: real)
    requires l.Sound() && ChargesCounted(l, s, t) && Legal(l, s, ops) && Frozen(l, s, ops, t)
    ensures ChargesCounted(l, Run(l, s, ops), t)
    decreases |ops|
  {
    if ops != [] {
      match ops[0] {
        case Check(_, _, _) => FrozenCheck(l, s, ops[0]);
        case Settle(_, _, _) => FrozenSettle(l, s, ops[0], t);
      }
      ExactWhenFrozen(l, Next(l, s, ops[0]), ops[1..], t);
    }
  }

  lemma {:induction false} LevelIsCapacityMinusCharges(l: Limits, ops: seq<Op>, t: real)
    requires l.Sound() && Legal(l, OPENING, ops) && Frozen(l, OPENING, ops, t)
    ensures var s := Run(l, OPENING, ops);
            Stock(s.acct.tok, l.tokCap) == l.tokCap - Total(s.entries) as real
  {
    ExactWhenFrozen(l, OPENING, ops, t);
  }

  // ---------------------------------------------------------------- requests in a window

  function CountAdmitted(l: Limits, s: State, ops: seq<Op>): nat
    decreases |ops|
  {
    if ops == [] then 0
    else (if Admitted(l, s, ops[0]) then 1 else 0) + CountAdmitted(l, Next(l, s, ops[0]), ops[1..])
  }

  ghost predicate ReqInRange(l: Limits, s: State) {
    InStep(s) && 0.0 <= Stock(s.acct.req, l.reqCap) <= l.reqCap
  }

  ghost predicate AllAgree(l: Limits, s: State, ops: seq<Op>)
    decreases |ops|
  {
    ops == [] || (ClocksAgree(l, s, ops[0]) && AllAgree(l, Next(l, s, ops[0]), ops[1..]))
  }

  function One(admitted: bool): real {
    if admitted then 1.0 else 0.0
  }

  lemma {:induction false} ReqCharges(l: Limits, s: State, op: Op)
    requires InStep(s) && op.Check?
    ensures var s' := Next(l, s, op);
            var level := Level(Live(s.acct.req, op.server), l.reqCap, l.reqRate, op.now);
            && level.Some? && s'.acct.req.Hash?
            && s'.acct.req.tokens == level.value - One(Admitted(l, s, op))
            && (Admitted(l, s, op) ==> level.value >= 1.0)
            && s'.reqRefill == s.reqRefill + Since(s, op.now) * l.reqRate
  {
  }

  lemma {:induction false} ReqLevelBound(l: Limits, s: State, op: Op)
    requires l.Sound() && ReqInRange(l, s) && op.Check? && ClocksAgree(l, s, op)
    ensures var level := Level(Live(s.acct.req, op.server), l.reqCap, l.reqRate, op.now);
            && level.Some? && 0.0 <= level.value <= l.reqCap
            && level.value <= Stock(s.acct.req, l.reqCap) + Since(s, op.now) * l.reqRate
  {
    MulMonotone(0.0, Since(s, op.now), l.reqRate);
    if Expired(s.acct.req, op.server) {
      FullAfterTtl(l.reqCap, l.reqRate, l.ttl, Since(s, op.now));
    }
  }

  /** A check never leaves the request bucket with more than it had, plus refill, less what
      it charged; expiry included, for the bucket is never in debt. */
  lemma {:induction false} ReqNext(l: Limits, s: State, op: Op)
    requires l.Sound() && ReqInRange(l, s) && Enabled(s, op) && ClocksAgree(l, s, op)
    ensures var s' := Next(l, s, op);
            && ReqInRange(l, s')
            && (op.Check? ==>
                 && s'.clock == Some(op.now)
                 && Stock(s'.acct.req, l.reqCap) + One(Admitted(l, s, op)) <= l.reqCap)
            && Stock(s'.acct.req, l.reqCap) + One(Admitted(l, s, op))
               <= Stock(s.acct.req, l.reqCap) + s'.reqRefill - s.reqRefill
  {
    BalanceNext(l, s, op);
    if op.Check? {
      CheckCharges(l, s, op);
      ReqCharges(l, s, op);
      ReqLevelBound(l, s, op);
    }
  }

  lemma {:induction false} AdmittedByRefill(l: Limits, s: State, ops: seq<Op>)
    requires l.Sound() && ReqInRange(l, s) && Legal(l, s, ops) && AllAgree(l, s, ops)
    ensures var e := Run(l, s, ops);
            && ReqInRange(l, e)
            && CountAdmitted(l, s, ops) as real + Stock(e.acct.req, l.reqCap)
               <= Stock(s.acct.req, l.reqCap) + e.reqRefill - s.reqRefill
    decreases |ops|
  {
    if ops != [] {
      var t := Next(l, s, ops[0]);
      ReqNext(l, s, ops[0]);
      AdmittedByRefill(l, t, ops[1..]);
    }
  }

  /** Checks come in order of time. */
  ghost predicate Monotone(l: Limits, s: State, ops: seq<Op>)
    decreases |ops|
  {
    ops != [] ==>
      && (ops[0].Check? && s.clock.Some? ==> ops[0].now >= s.clock.value)
      && Monotone(l, Next(l, s, ops[0]), ops[1..])
  }

  lemma {:induction false} ForwardIsElapsed(l: Limits, s: State, ops: seq<Op>)
    requires InStep(s) && s.clock.Some? && Legal(l, s, ops) && Monotone(l, s, ops)
    ensures var e := Run(l, s, ops);
            e.clock.Some? && e.forward - s.forward == e.clock.value - s.clock.value
    decreases |ops|
  {
    if ops != [] {
      BalanceNext(l, s, ops[0]);
      if ops[0].Check? {
        CheckCharges(l, s, ops[0]);
      }
      ForwardIsElapsed(l, Next(l, s, ops[0]), ops[1..]);
    }
  }

  lemma {:induction false} RefillBetween(l: Limits, s: State, s': State, elapsed: real)
    requires AtRate(l, s) && AtRate(l, s') && s'.forward - s.forward == elapsed
    ensures s'.reqRefill - s.reqRefill == Refilled(l, elapsed)
  {
    SumTimesRate(s.forward, elapsed, l.reqRate);
  }

  function Refilled(l: Limits, elapsed: real): real {
    elapsed * l.reqRate
  }

  lemma {:induction false} RefillOver(l: Limits, s: State, op: Op, ops: seq<Op>)
    requires InStep(s) && AtRate(l, s) && op.Check? && Enabled(s, op)
    requires Legal(l, Next(l, s, op), ops) && Monotone(l, Next(l, s, op), ops)
    ensures var t := Next(l, s, op);
            var e := Run(l, t, ops);
            e.clock.Some? && e.reqRefill - t.reqRefill == Refilled(l, e.clock.value - op.now)
  {
    var t := Next(l, s, op);
    BalanceNext(l, s, op);
    CheckCharges(l, s, op);
    ForwardIsElapsed(l, t, ops);
    AtRateNext(l, s, op);
    RefillIsRate(l, t, ops);
    RefillBetween(l, t, Run(l, t, ops), Run(l, t, ops).clock.value - op.now);
  }

  /** From any moment of any run on, the checks of a time interval admit at most the capacity
      plus what the interval refills; expiries of the key in between make no difference. */
  lemma {:induction false} WindowBound(l: Limits, s: State, op: Op, ops: seq<Op>)
    requires l.Sound() && ReqInRange(l, s) && AtRate(l, s) && op.Check?
    requires var all := [op] + ops; Legal(l, s, all) && AllAgree(l, s, all) && Monotone(l, s, all)
    ensures var e := Run(l, s, [op] + ops);
            && e.clock.Some?
            && CountAdmitted(l, s, [op] + ops) as real <= l.reqCap + Refilled(l, e.clock.value - op.now)
  {
    var t := Next(l, s, op);
    assert ([op] + ops)[1..] == ops;
    ReqNext(l, s, op);
    AdmittedByRefill(l, t, ops);
    RefillOver(l, s, op, ops);
  }

  lemma {:induction false} HalfTtl(l: Limits, span: real)
    requires l.Sound() && 2.0 * span <= l.ttl
    ensures Refilled(l, span) <= l.reqCap
  {
    MulMonotone(2.0 * span, l.ttl, l.reqRate);
  }

  /** At most twice the per-window limit in any window: half the time to live of a key. */
  lemma {:induction false} TwiceTheLimitPerWindow(l: Limits, s: State, op: Op, ops: seq<Op>)
    requires l.Sound() && ReqInRange(l, s) && AtRate(l, s) && op.Check?
    requires var all := [op] + ops; Legal(l, s, all) && AllAgree(l, s, all) && Monotone(l, s, all)
    requires 2.0 * (Run(l, s, [op] + ops).clock.GetOr(op.now) - op.now) <= l.ttl
    ensures CountAdmitted(l, s, [op] + ops) as real <= 2.0 * l.reqCap
  {
    WindowBound(l, s, op, ops);
    HalfTtl(l, Run(l, s, [op] + ops).clock.value - op.now);
  }
}
