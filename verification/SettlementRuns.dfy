/** All requests of a tenant together, however their handlers interleave: each runs as
    ChatCompletions does, from its check to its one correction if it has one, and what others do
    at its awaits is the rest of the history. Such a history is a legal run of the tenant's
    ledger, and once every request has ended the ledger holds the sum of their net charges. */
module SettlementRuns {
  import opened Prelude
  import opened Histories
  import opened Limiter
  import opened Accounting
  import Ledger

  /** A request whose handler reaches the limiter after so many moves of the history. */
  datatype Handled = Handled(begun: nat, req: Request, w: World)

  function EventFor(m: Tagged<Move>, id: nat): Event<Move> {
    if m.id == id then Mine(m.move) else Theirs(m.move)
  }

  /** The tenant's keys after `n` moves. */
  function AccountAt(t: Tenant, windowS: int, h: seq<Tagged<Move>>, n: nat): Account
    requires windowS > 0 && n <= |h|
  {
    if n == 0 then Account(Absent, Absent) else Moved(t, windowS, AccountAt(t, windowS, h, n - 1), h[n - 1].move)
  }

  function Log(t: Tenant, windowS: int, h: seq<Tagged<Move>>, g: Handled): seq<Event<Move>>
    requires windowS > 0 && g.begun <= |h|
  {
    LogOf(t, windowS, AccountAt(t, windowS, h, g.begun), g.req, g.w)
  }

  /** In the history, request `id` is one run of the handler, possibly still in progress. */
  ghost predicate RunsRequest(t: Tenant, windowS: int, h: seq<Tagged<Move>>, id: nat, g: Handled)
    requires windowS > 0
  {
    && g.begun <= |h|
    && var log := Log(t, windowS, h, g);
       forall i | 0 <= i < |h| ::
         if g.begun <= i < g.begun + |log| then EventFor(h[i], id) == log[i - g.begun] else h[i].id != id
  }

  ghost predicate AreRequests(t: Tenant, windowS: int, h: seq<Tagged<Move>>, runs: seq<Handled>)
    requires windowS > 0
  {
    && (forall id | 0 <= id < |runs| :: RunsRequest(t, windowS, h, id, runs[id]))
    && (forall i | 0 <= i < |h| :: h[i].id < |runs|)
  }

  /** A correction that is not zero finds the key of the token bucket live. */
  ghost predicate KeysLive(t: Tenant, windowS: int, h: seq<Tagged<Move>>)
    requires windowS > 0
  {
    forall i | 0 <= i < |h| && h[i].move.Correct? && h[i].move.actual != h[i].move.estimate ::
      Live(AccountAt(t, windowS, h, i).tok, h[i].move.server).Hash?
  }

  // ---------------------------------------------------------------- where a request stands

  /** The request's check is among the first `n` moves and admitted it. */
  predicate IsAdmitted(t: Tenant, windowS: int, h: seq<Tagged<Move>>, g: Handled, n: nat)
    requires windowS > 0
  {
    g.begun < n <= |h| && Admits(t, windowS, AccountAt(t, windowS, h, g.begun), Admission(g.req, g.w))
  }

  /** The request has made its last move. */
  predicate HasEnded(t: Tenant, windowS: int, h: seq<Tagged<Move>>, g: Handled, n: nat)
    requires windowS > 0
  {
    g.begun <= |h| && g.begun + |Log(t, windowS, h, g)| <= n
  }

  /** What the ledger holds of an admitted request. */
  function Standing(t: Tenant, windowS: int, h: seq<Tagged<Move>>, g: Handled, n: nat): Ledger.Entry
    requires windowS > 0
  {
    var due := Due(EndingOf(g.req, g.w));
    if HasEnded(t, windowS, h, g, n) && due.Some? then Ledger.Settled(g.req.estimate, due.value)
    else Ledger.Reserved(g.req.estimate)
  }

  /** A request's own moves are its check and, if it is admitted and its ending calls for it, one
      correction at the very end. */
  lemma {:induction false} OwnMove(t: Tenant, windowS: int, h: seq<Tagged<Move>>, id: nat, g: Handled, n: nat)
    requires windowS > 0 && n < |h| && RunsRequest(t, windowS, h, id, g) && h[n].id == id
    ensures var due := Due(EndingOf(g.req, g.w));
            || (n == g.begun && h[n].move == Admission(g.req, g.w))
            || (&& g.begun < n && n + 1 == g.begun + |Log(t, windowS, h, g)|
                && IsAdmitted(t, windowS, h, g, n) && due.Some?
                && h[n].move == Correct(g.w.later, due.value, g.req.estimate))
  {
    var log := Log(t, windowS, h, g);
    assert EventFor(h[n], id) == log[n - g.begun];
  }

  /** A request makes its check when it begins and its correction when it ends. */
  lemma {:induction false} OwnMoments(t: Tenant, windowS: int, h: seq<Tagged<Move>>, id: nat, g: Handled, n: nat)
    requires windowS > 0 && n < |h| && RunsRequest(t, windowS, h, id, g)
    ensures n == g.begun ==> h[n].id == id
    ensures var last := n + 1 == g.begun + |Log(t, windowS, h, g)|;
            IsAdmitted(t, windowS, h, g, n + 1) && Due(EndingOf(g.req, g.w)).Some? && last ==>
              n > g.begun && h[n].id == id
  {
    var log := Log(t, windowS, h, g);
    if g.begun <= n < g.begun + |log| {
      assert EventFor(h[n], id) == log[n - g.begun];
    }
  }

  /** Other requests' moves change nothing about where a request stands. */
  lemma {:induction false} OthersChangeNothing(t: Tenant, windowS: int, h: seq<Tagged<Move>>, id: nat, g: Handled,
      n: nat)
    requires windowS > 0 && n < |h| && RunsRequest(t, windowS, h, id, g) && h[n].id != id
    ensures IsAdmitted(t, windowS, h, g, n + 1) == IsAdmitted(t, windowS, h, g, n)
    ensures IsAdmitted(t, windowS, h, g, n) ==> Standing(t, windowS, h, g, n + 1) == Standing(t, windowS, h, g, n)
  {
    OwnMoments(t, windowS, h, id, g, n);
  }

  lemma {:induction false} OthersStand(t: Tenant, windowS: int, h: seq<Tagged<Move>>, runs: seq<Handled>, n: nat)
    requires windowS > 0 && n < |h| && AreRequests(t, windowS, h, runs)
    ensures forall id: nat | id < |runs| && id != h[n].id ::
              && IsAdmitted(t, windowS, h, runs[id], n + 1) == IsAdmitted(t, windowS, h, runs[id], n)
              && (IsAdmitted(t, windowS, h, runs[id], n) ==>
                    Standing(t, windowS, h, runs[id], n + 1) == Standing(t, windowS, h, runs[id], n))
  {
    forall id: nat | id < |runs| && id != h[n].id
      ensures IsAdmitted(t, windowS, h, runs[id], n + 1) == IsAdmitted(t, windowS, h, runs[id], n)
      ensures IsAdmitted(t, windowS, h, runs[id], n) ==>
                Standing(t, windowS, h, runs[id], n + 1) == Standing(t, windowS, h, runs[id], n)
    {
      OthersChangeNothing(t, windowS, h, id, runs[id], n);
    }
  }

  // ---------------------------------------------------------------- the history as a ledger run

  function AdmittedBy(t: Tenant, windowS: int, acct: Account, m: Tagged<Move>): seq<nat>
    requires windowS > 0
  {
    if Admits(t, windowS, acct, m.move) then [m.id] else []
  }

  /** The requests admitted by the first `n` moves, in order of admission. */
  function Order(t: Tenant, windowS: int, h: seq<Tagged<Move>>, n: nat): seq<nat>
    requires windowS > 0 && n <= |h|
  {
    if n == 0 then []
    else Order(t, windowS, h, n - 1) + AdmittedBy(t, windowS, AccountAt(t, windowS, h, n - 1), h[n - 1])
  }

  function IndexOf(ids: seq<nat>, id: nat): (i: nat)
    ensures id in ids ==> i < |ids| && ids[i] == id
  {
    if ids == [] || ids[0] == id then 0 else 1 + IndexOf(ids[1..], id)
  }

  function OpFor(order: seq<nat>, m: Tagged<Move>): Ledger.Op {
    match m.move
    case Charge(now, server, estimate) => Ledger.Check(now, server, if estimate >= 0 then estimate else 0)
    case Correct(server, actual, _) => Ledger.Settle(server, IndexOf(order, m.id), actual)
  }

  /** The ledger operations of the first `n` moves. */
  function Ops(t: Tenant, windowS: int, h: seq<Tagged<Move>>, n: nat): seq<Ledger.Op>
    requires windowS > 0 && n <= |h|
  {
    if n == 0 then [] else Ops(t, windowS, h, n - 1) + [OpFor(Order(t, windowS, h, n - 1), h[n - 1])]
  }

  function Booked(t: Tenant, windowS: int, h: seq<Tagged<Move>>, n: nat): Ledger.State
    requires windowS > 0 && n <= |h|
  {
    Ledger.Run(Ledger.LimitsOf(t, windowS), Ledger.OPENING, Ops(t, windowS, h, n))
  }

  predicate Distinct(ids: seq<nat>) {
    forall i, j | 0 <= i < j < |ids| :: ids[i] != ids[j]
  }

  /** The ledger holds exactly the admitted requests, each once and each as it stands. */
  ghost predicate Mirrors(t: Tenant, windowS: int, h: seq<Tagged<Move>>, runs: seq<Handled>, n: nat,
                          order: seq<nat>, s: Ledger.State)
    requires windowS > 0 && n <= |h|
  {
    && s.acct == AccountAt(t, windowS, h, n)
    && |s.entries| == |order| && Distinct(order)
    && (forall id: nat :: id in order <==> id < |runs| && IsAdmitted(t, windowS, h, runs[id], n))
    && (forall i | 0 <= i < |order| ::
          order[i] < |runs| && s.entries[i] == Standing(t, windowS, h, runs[order[i]], n))
  }

  lemma {:induction false} RunSnoc(l: Ledger.Limits, s: Ledger.State, ops: seq<Ledger.Op>, op: Ledger.Op)
    ensures Ledger.Run(l, s, ops + [op]) == Ledger.Next(l, Ledger.Run(l, s, ops), op)
    ensures Ledger.Legal(l, s, ops + [op]) <==>
            Ledger.Legal(l, s, ops) && Ledger.Enabled(Ledger.Run(l, s, ops), op)
    decreases |ops|
  {
    if ops == [] {
      Ledger.RunCons(l, s, op, []);
      assert [] + [op] == [op] + [];
    } else {
      assert ops + [op] == [ops[0]] + (ops[1..] + [op]);
      Ledger.RunCons(l, s, ops[0], ops[1..] + [op]);
      RunSnoc(l, Ledger.Next(l, s, ops[0]), ops[1..], op);
    }
  }

  predicate Sizes(t: Tenant, windowS: int) {
    windowS > 0 && t.requestsPerMin >= 0 && t.tokensPerMin >= 0
  }

  lemma {:induction false} CheckNext(t: Tenant, windowS: int, s: Ledger.State, now: real, server: real, estimate: nat)
    requires Sizes(t, windowS)
    ensures var next := Ledger.Next(Ledger.LimitsOf(t, windowS), s, Ledger.Check(now, server, estimate));
            var m := Charge(now, server, estimate);
            && next.acct == Moved(t, windowS, s.acct, m)
            && next.entries
               == s.entries + if Admits(t, windowS, s.acct, m) then [Ledger.Reserved(estimate)] else []
  {
    Ledger.LimitsAreSound(t, windowS, now, estimate);
  }

  lemma {:induction false} SettleNext(t: Tenant, windowS: int, s: Ledger.State, server: real, i: nat, actual: int,
      estimate: nat)
    requires Sizes(t, windowS) && i < |s.entries| && s.entries[i] == Ledger.Reserved(estimate)
    requires actual != estimate ==> Live(s.acct.tok, server).Hash?
    ensures var op := Ledger.Settle(server, i, actual);
            var next := Ledger.Next(Ledger.LimitsOf(t, windowS), s, op);
            && Ledger.Enabled(s, op)
            && next.acct == Moved(t, windowS, s.acct, Correct(server, actual, estimate))
            && next.entries == s.entries[i := Ledger.Settled(estimate, actual)]
  {
  }

  /** One check keeps the ledger and the requests in step. */
  lemma {:induction false} MirrorsCheck(t: Tenant, windowS: int, h: seq<Tagged<Move>>, runs: seq<Handled>, n: nat,
      order: seq<nat>, s: Ledger.State)
    requires Sizes(t, windowS) && n < |h| && AreRequests(t, windowS, h, runs)
    requires Mirrors(t, windowS, h, runs, n, order, s) && h[n].move.Charge?
    ensures var op, more := OpFor(order, h[n]), AdmittedBy(t, windowS, AccountAt(t, windowS, h, n), h[n]);
            && Ledger.Enabled(s, op)
            && Mirrors(t, windowS, h, runs, n + 1, order + more, Ledger.Next(Ledger.LimitsOf(t, windowS), s, op))
  {
    var id := h[n].id;
    var g := runs[id];
    OwnMove(t, windowS, h, id, g, n);
    CheckNext(t, windowS, s, g.w.now, g.w.server, g.req.estimate);
    assert id !in order;
    OthersStand(t, windowS, h, runs, n);
  }

  /** So does one correction. */
  lemma {:induction false} MirrorsCorrection(t: Tenant, windowS: int, h: seq<Tagged<Move>>, runs: seq<Handled>, n: nat,
      order: seq<nat>, s: Ledger.State)
    requires Sizes(t, windowS) && n < |h| && AreRequests(t, windowS, h, runs) && KeysLive(t, windowS, h)
    requires Mirrors(t, windowS, h, runs, n, order, s) && h[n].move.Correct?
    ensures var op := OpFor(order, h[n]);
            && Ledger.Enabled(s, op)
            && Mirrors(t, windowS, h, runs, n + 1, order, Ledger.Next(Ledger.LimitsOf(t, windowS), s, op))
  {
    var id := h[n].id;
    var g, at := runs[id], IndexOf(order, id);
    OwnMove(t, windowS, h, id, g, n);
    assert id in order && order[at] == id;
    SettleNext(t, windowS, s, h[n].move.server, at, h[n].move.actual, g.req.estimate);
    OthersStand(t, windowS, h, runs, n);
  }

  lemma {:induction false} MirrorsNext(t: Tenant, windowS: int, h: seq<Tagged<Move>>, runs: seq<Handled>, n: nat,
      order: seq<nat>, s: Ledger.State)
    requires Sizes(t, windowS) && n < |h| && AreRequests(t, windowS, h, runs) && KeysLive(t, windowS, h)
    requires Mirrors(t, windowS, h, runs, n, order, s)
    ensures var op, more := OpFor(order, h[n]), AdmittedBy(t, windowS, AccountAt(t, windowS, h, n), h[n]);
            && Ledger.Enabled(s, op)
            && Mirrors(t, windowS, h, runs, n + 1, order + more, Ledger.Next(Ledger.LimitsOf(t, windowS), s, op))
  {
    if h[n].move.Charge? {
      MirrorsCheck(t, windowS, h, runs, n, order, s);
    } else {
      MirrorsCorrection(t, windowS, h, runs, n, order, s);
      assert order + [] == order;
    }
  }

  lemma {:induction false} BookedNext(t: Tenant, windowS: int, h: seq<Tagged<Move>>, n: nat)
    requires windowS > 0 && n < |h|
    ensures var l, op := Ledger.LimitsOf(t, windowS), OpFor(Order(t, windowS, h, n), h[n]);
            && Booked(t, windowS, h, n + 1) == Ledger.Next(l, Booked(t, windowS, h, n), op)
            && (Ledger.Legal(l, Ledger.OPENING, Ops(t, windowS, h, n + 1)) <==>
                Ledger.Legal(l, Ledger.OPENING, Ops(t, windowS, h, n)) && Ledger.Enabled(Booked(t, windowS, h, n), op))
  {
    RunSnoc(Ledger.LimitsOf(t, windowS), Ledger.OPENING, Ops(t, windowS, h, n),
            OpFor(Order(t, windowS, h, n), h[n]));
  }

  /** The ledger's run is legal and in step with the requests. */
  ghost predicate InStep(t: Tenant, windowS: int, h: seq<Tagged<Move>>, runs: seq<Handled>, n: nat)
    requires windowS > 0 && n <= |h|
  {
    && Ledger.Legal(Ledger.LimitsOf(t, windowS), Ledger.OPENING, Ops(t, windowS, h, n))
    && Mirrors(t, windowS, h, runs, n, Order(t, windowS, h, n), Booked(t, windowS, h, n))
  }

  lemma {:induction false} InStepAtStart(t: Tenant, windowS: int, h: seq<Tagged<Move>>, runs: seq<Handled>)
    requires windowS > 0
    ensures InStep(t, windowS, h, runs, 0)
  {
    assert Mirrors(t, windowS, h, runs, 0, [], Ledger.OPENING);
  }

  lemma {:induction false} InStepNext(t: Tenant, windowS: int, h: seq<Tagged<Move>>, runs: seq<Handled>, n: nat)
    requires Sizes(t, windowS) && n < |h| && AreRequests(t, windowS, h, runs) && KeysLive(t, windowS, h)
    requires InStep(t, windowS, h, runs, n)
    ensures InStep(t, windowS, h, runs, n + 1)
  {
    MirrorsNext(t, windowS, h, runs, n, Order(t, windowS, h, n), Booked(t, windowS, h, n));
    BookedNext(t, windowS, h, n);
  }

  /** At every moment of every history of requests, the ledger's run is legal, its account is the
      tenant's keys, and it holds each admitted request once: reserved while it is in progress,
      settled with what its ending calls for when it has ended. */
  lemma {:induction false} RequestsAreLedgerRuns(t: Tenant, windowS: int, h: seq<Tagged<Move>>, runs: seq<Handled>,
      n: nat)
    requires Sizes(t, windowS) && n <= |h| && AreRequests(t, windowS, h, runs) && KeysLive(t, windowS, h)
    ensures InStep(t, windowS, h, runs, n)
  {
    InStepAtStart(t, windowS, h, runs);
    for i := 0 to n
      invariant InStep(t, windowS, h, runs, i)
    {
      InStepNext(t, windowS, h, runs, i);
    }
  }

  // ---------------------------------------------------------------- what requests are charged

  /** What a request is charged after `n` moves: its estimate until it ends, then its net charge. */
  function ChargedAt(t: Tenant, windowS: int, h: seq<Tagged<Move>>, g: Handled, n: nat): int
    requires windowS > 0
  {
    if HasEnded(t, windowS, h, g, n) then NetCharge(EndingOf(g.req, g.w), g.req.estimate) else g.req.estimate
  }

  predicate Known(runs: seq<Handled>, ids: seq<nat>) {
    forall i | 0 <= i < |ids| :: ids[i] < |runs|
  }

  function TotalCharged(t: Tenant, windowS: int, h: seq<Tagged<Move>>, runs: seq<Handled>, n: nat, ids: seq<nat>): int
    requires windowS > 0 && Known(runs, ids)
  {
    if ids == [] then 0
    else
      var last := |ids| - 1;
      TotalCharged(t, windowS, h, runs, n, ids[..last]) + ChargedAt(t, windowS, h, runs[ids[last]], n)
  }

  lemma {:induction false} TotalIsCharged(t: Tenant, windowS: int, h: seq<Tagged<Move>>, runs: seq<Handled>, n: nat,
      ids: seq<nat>, entries: seq<Ledger.Entry>)
    requires windowS > 0 && |entries| == |ids| && Known(runs, ids)
    requires forall i | 0 <= i < |ids| :: entries[i] == Standing(t, windowS, h, runs[ids[i]], n)
    ensures Ledger.Total(entries) == TotalCharged(t, windowS, h, runs, n, ids)
  {
    if ids != [] {
      var last := |ids| - 1;
      TotalIsCharged(t, windowS, h, runs, n, ids[..last], entries[..last]);
      assert Ledger.Charge(entries[last]) == ChargedAt(t, windowS, h, runs[ids[last]], n);
    }
  }

  /** Each admitted request counts once, and no other does. */
  ghost predicate AreAdmitted(t: Tenant, windowS: int, h: seq<Tagged<Move>>, runs: seq<Handled>, n: nat, ids: seq<nat>)
    requires windowS > 0
  {
    && Known(runs, ids) && Distinct(ids)
    && forall id: nat :: id in ids <==> id < |runs| && IsAdmitted(t, windowS, h, runs[id], n)
  }

  lemma {:induction false} Accounts(l: Ledger.Limits, ops: seq<Ledger.Op>)
    requires Ledger.Legal(l, Ledger.OPENING, ops)
    ensures var s := Ledger.Run(l, Ledger.OPENING, ops);
            var left := Ledger.Stock(s.acct.tok, l.tokCap);
            && left == Ledger.Budget(l, s) - s.spilled - Ledger.Total(s.entries) as real
            && left + Ledger.Total(s.entries) as real <= Ledger.Granted(l, s)
  {
    Ledger.Conservation(l, ops);
    Ledger.TokenLedger(l, ops);
  }

  /** At every moment of every history of requests: what is in the bucket, what the admitted
      requests are charged, and what overflowed make up the budget, and bucket and charges together
      never exceed what was granted. */
  lemma {:induction false} AtEveryMoment(t: Tenant, windowS: int, h: seq<Tagged<Move>>, runs: seq<Handled>, n: nat)
    requires Sizes(t, windowS) && n <= |h| && AreRequests(t, windowS, h, runs) && KeysLive(t, windowS, h)
    ensures var l, s, ids := Ledger.LimitsOf(t, windowS), Booked(t, windowS, h, n), Order(t, windowS, h, n);
            && AreAdmitted(t, windowS, h, runs, n, ids)
            && Ledger.Total(s.entries) == TotalCharged(t, windowS, h, runs, n, ids)
            && var left := Ledger.Stock(AccountAt(t, windowS, h, n).tok, l.tokCap);
            && var used := Ledger.Total(s.entries) as real;
            && left == Ledger.Budget(l, s) - s.spilled - used
            && left + used <= Ledger.Granted(l, s)
  {
    RequestsAreLedgerRuns(t, windowS, h, runs, n);
    TotalIsCharged(t, windowS, h, runs, n, Order(t, windowS, h, n), Booked(t, windowS, h, n).entries);
    Accounts(Ledger.LimitsOf(t, windowS), Ops(t, windowS, h, n));
  }

  /** The sum of what the requests should have been charged. */
  function NetTotal(runs: seq<Handled>, ids: seq<nat>): int
    requires Known(runs, ids)
  {
    if ids == [] then 0
    else
      var g := runs[ids[|ids| - 1]];
      NetTotal(runs, ids[..|ids| - 1]) + NetCharge(EndingOf(g.req, g.w), g.req.estimate)
  }

  lemma {:induction false} ChargedIsNet(t: Tenant, windowS: int, h: seq<Tagged<Move>>, runs: seq<Handled>,
      ids: seq<nat>)
    requires windowS > 0 && Known(runs, ids)
    requires forall id | 0 <= id < |runs| :: HasEnded(t, windowS, h, runs[id], |h|)
    ensures TotalCharged(t, windowS, h, runs, |h|, ids) == NetTotal(runs, ids)
  {
    if ids != [] {
      ChargedIsNet(t, windowS, h, runs, ids[..|ids| - 1]);
    }
  }

  /** Once every request has ended, the bucket is short of its budget by exactly what overflowed
      and the sum of the net charges of the requests that were admitted; and what they used and
      what is left never exceed what was granted. */
  lemma {:induction false} AtQuiescence(t: Tenant, windowS: int, h: seq<Tagged<Move>>, runs: seq<Handled>)
    requires Sizes(t, windowS) && AreRequests(t, windowS, h, runs) && KeysLive(t, windowS, h)
    requires forall id | 0 <= id < |runs| :: HasEnded(t, windowS, h, runs[id], |h|)
    ensures var l, s, ids := Ledger.LimitsOf(t, windowS), Booked(t, windowS, h, |h|), Order(t, windowS, h, |h|);
            && AreAdmitted(t, windowS, h, runs, |h|, ids)
            && var left := Ledger.Stock(AccountAt(t, windowS, h, |h|).tok, l.tokCap);
            && var used := NetTotal(runs, ids) as real;
            && left == Ledger.Budget(l, s) - s.spilled - used
            && left + used <= Ledger.Granted(l, s)
  {
    AtEveryMoment(t, windowS, h, runs, |h|);
    ChargedIsNet(t, windowS, h, runs, Order(t, windowS, h, |h|));
  }
}
