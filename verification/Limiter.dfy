/** The two-dimensional token bucket (gateway/ratelimit/limiter.py): the Lua script as one
    atomic step on two Redis hashes, and the later correction of the token bucket. Times are
    real numbers; `server` is Redis's own clock, which alone decides when a key has expired. */
module Limiter {
  import opened Prelude

  /** A Redis hash with fields `tokens` and `ts`, and the server time at which it expires. */
  datatype Hash = Absent | Hash(tokens: real, ts: Option<real>, expires: Option<real>)

  predicate Expired(h: Hash, server: real) {
    h.Hash? && h.expires.Some? && server >= h.expires.value
  }

  function Live(h: Hash, server: real): Hash {
    if Expired(h, server) then Absent else h
  }

  datatype Tenant = Tenant(id: string, requestsPerMin: int, tokensPerMin: int)

  datatype Args = Args(
    now: real,
    reqCap: real, reqRate: real, reqCost: real,
    tokCap: real, tokRate: real, tokCost: real,
    ttl: real)

  datatype Dimension = NoDimension | Requests | Tokens

  datatype Decision = Decision(allowed: bool, retryAfter: real, blocked: Dimension)

  datatype Account = Account(req: Hash, tok: Hash)

  datatype Effect = Fault | Replied(decision: Decision, after: Account)

  function Forward(elapsed: real): real {
    Max(0.0, elapsed)
  }

  /** The refilled level of a bucket, capped; None when the hash has tokens but no timestamp,
      on which the script's subtraction fails. */
  function Level(h: Hash, cap: real, rate: real, now: real): Option<real> {
    match h
    case Absent => Some(cap)
    case Hash(tokens, Some(ts), _) => Some(Min(cap, tokens + Forward(now - ts) * rate))
    case Hash(_, None, _) => None
  }

  function Stored(before: Hash, level: real, a: Args, server: real): Hash {
    var kept := if before.Hash? then before.expires else None;
    Hash(level, Some(a.now), if a.ttl > 0.0 then Some(server + a.ttl) else kept)
  }

  function Wait(need: real, rate: real): real {
    if rate > 0.0 then need / rate else 0.0
  }

  function Decide(a: Args, req: real, tok: real): Decision {
    if tok < a.tokCost then Decision(false, Wait(a.tokCost - tok, a.tokRate), Tokens)
    else if req < a.reqCost then Decision(false, Wait(a.reqCost - req, a.reqRate), Requests)
    else Decision(true, 0.0, NoDimension)
  }

  /** The script on live hashes: refill both, charge both or neither, write both back. */
  function Script(a: Args, server: real, acct: Account): Effect {
    var req, tok := Level(acct.req, a.reqCap, a.reqRate, a.now), Level(acct.tok, a.tokCap, a.tokRate, a.now);
    if req.None? || tok.None? then Fault
    else
      var d := Decide(a, req.value, tok.value);
      var (r, t) := if d.allowed then (req.value - a.reqCost, tok.value - a.tokCost) else (req.value, tok.value);
      Replied(d, Account(Stored(acct.req, r, a, server), Stored(acct.tok, t, a, server)))
  }

  function ExpiryOf(h: Hash): Option<real> {
    if h.Hash? then h.expires else None
  }

  /** A script that answers renews both keys' time to live, or, without one, leaves it as it was. */
  lemma {:induction false} ScriptRenews(a: Args, server: real, acct: Account)
    requires Script(a, server, acct).Replied?
    ensures var after := Script(a, server, acct).after;
            && after.req.Hash? && after.tok.Hash?
            && after.req.expires == (if a.ttl > 0.0 then Some(server + a.ttl) else ExpiryOf(acct.req))
            && after.tok.expires == (if a.ttl > 0.0 then Some(server + a.ttl) else ExpiryOf(acct.tok))
  {
  }

  /** HINCRBYFLOAT on a live hash: a missing hash is created with this one field. */
  function Incremented(h: Hash, delta: real): Hash {
    match h
    case Absent => Hash(delta, None, None)
    case Hash(tokens, ts, expires) => Hash(tokens + delta, ts, expires)
  }

  class Redis {
    var keys: map<string, Hash>

    constructor ()
      ensures keys == map[]
    {
      keys := map[];
    }

    function Read(key: string, server: real): Hash
      reads this
    {
      if key in keys then Live(keys[key], server) else Absent
    }

    /** The Lua script; None when it fails, in which case it has written nothing. */
    method Evaluate(reqKey: string, tokKey: string, a: Args, server: real) returns (reply: Option<Decision>)
      requires reqKey != tokKey
      modifies this
      ensures match Script(a, server, Account(old(Read(reqKey, server)), old(Read(tokKey, server))))
              case Fault => reply == None && keys == old(keys)
              case Replied(d, after) =>
                reply == Some(d) && keys == old(keys)[reqKey := after.req][tokKey := after.tok]
    {
      var req, tok := Read(reqKey, server), Read(tokKey, server);
      var reqLevel, tokLevel := Level(req, a.reqCap, a.reqRate, a.now), Level(tok, a.tokCap, a.tokRate, a.now);
      if reqLevel.None? || tokLevel.None? {
        return None;
      }
      var r, t := reqLevel.value, tokLevel.value;
      var allowed := true;
      if r < a.reqCost || t < a.tokCost {
        allowed := false;
      }
      if allowed {
        r := r - a.reqCost;
        t := t - a.tokCost;
      }
      keys := keys[reqKey := Stored(req, r, a, server)];
      keys := keys[tokKey := Stored(tok, t, a, server)];
      var retry, blocked := 0.0, NoDimension;
      if !allowed {
        if t < a.tokCost {
          blocked := Tokens;
          if a.tokRate > 0.0 {
            retry := (a.tokCost - t) / a.tokRate;
          }
        } else {
          blocked := Requests;
          if a.reqRate > 0.0 {
            retry := (a.reqCost - r) / a.reqRate;
          }
        }
      }
      reply := Some(Decision(allowed, retry, blocked));
    }

    method IncrementTokens(key: string, delta: real, server: real)
      modifies this
      ensures keys == old(keys)[key := Incremented(old(Read(key, server)), delta)]
    {
      keys := keys[key := Incremented(Read(key, server), delta)];
    }
  }

  function ReqKey(tenant: string): string { "rl:" + tenant + ":req" }

  function TokKey(tenant: string): string { "rl:" + tenant + ":tok" }

  /** Tenants never share a key, nor do a tenant's two buckets. */
  lemma {:induction false} KeysApart(t: string, u: string)
    ensures ReqKey(t) != TokKey(u)
    ensures t != u ==> ReqKey(t) != ReqKey(u) && TokKey(t) != TokKey(u)
  {
    assert ReqKey(t)[|ReqKey(t)| - 1] == 'q' && TokKey(u)[|TokKey(u)| - 1] == 'k';
    assert ReqKey(t)[3..|ReqKey(t)| - 4] == t && ReqKey(u)[3..|ReqKey(u)| - 4] == u;
    assert TokKey(t)[3..|TokKey(t)| - 4] == t && TokKey(u)[3..|TokKey(u)| - 4] == u;
  }

  function ArgsFor(t: Tenant, windowS: int, now: real, estimate: int): Args
    requires windowS > 0
  {
    var w := windowS as real;
    Args(now, t.requestsPerMin as real, t.requestsPerMin as real / w, 1.0,
         t.tokensPerMin as real, t.tokensPerMin as real / w, estimate as real, w * 2.0)
  }

  function AccountOf(keys: map<string, Hash>, tenant: string): Account {
    var req, tok := ReqKey(tenant), TokKey(tenant);
    Account(if req in keys then keys[req] else Absent, if tok in keys then keys[tok] else Absent)
  }

  /** The names under which a tenant's two buckets are kept. */
  lemma {:induction false} KeysAreNamed(tenant: string, req: Hash, tok: Hash)
    ensures AccountOf(map["rl:" + tenant + ":req" := req, "rl:" + tenant + ":tok" := tok], tenant) == Account(req, tok)
  {
    KeysApart(tenant, tenant);
  }

  function LiveAccount(acct: Account, server: real): Account {
    Account(Live(acct.req, server), Live(acct.tok, server))
  }

  /** A zero correction touches nothing, not even a missing key. */
  function Reconciled(acct: Account, server: real, actual: int, estimate: int): Account {
    if actual == estimate then acct
    else acct.(tok := Incremented(Live(acct.tok, server), (estimate - actual) as real))
  }

  class RateLimiter {
    const client: Redis
    const windowS: int

    constructor (client: Redis, windowS: int)
      requires windowS > 0
      ensures this.client == client && this.windowS == windowS
    {
      this.client, this.windowS := client, windowS;
    }

    /** Admits and charges one request, or fails with the script. Other tenants are untouched. */
    method Check(tenant: Tenant, estimate: int, now: real, server: real) returns (reply: Option<Decision>)
      requires windowS > 0
      modifies client
      ensures match Script(ArgsFor(tenant, windowS, now, estimate), server,
                           LiveAccount(old(AccountOf(client.keys, tenant.id)), server))
              case Fault => reply == None && client.keys == old(client.keys)
              case Replied(d, after) => reply == Some(d) && AccountOf(client.keys, tenant.id) == after
      ensures forall u | u != tenant.id :: AccountOf(client.keys, u) == old(AccountOf(client.keys, u))
    {
      KeysApart(tenant.id, tenant.id);
      reply := client.Evaluate(ReqKey(tenant.id), TokKey(tenant.id),
                               ArgsFor(tenant, windowS, now, estimate), server);
      forall u | u != tenant.id
        ensures AccountOf(client.keys, u) == old(AccountOf(client.keys, u))
      {
        KeysApart(u, tenant.id);
        KeysApart(tenant.id, u);
      }
    }

    /** Adds back what the estimate charged too much, or charges what it missed. */
    method Reconcile(tenant: Tenant, actual: int, estimate: int, server: real)
      modifies client
      ensures AccountOf(client.keys, tenant.id)
              == Reconciled(old(AccountOf(client.keys, tenant.id)), server, actual, estimate)
      ensures forall u | u != tenant.id :: AccountOf(client.keys, u) == old(AccountOf(client.keys, u))
    {
      var adjustment := estimate - actual;
      if adjustment == 0 {
        return;
      }
      client.IncrementTokens(TokKey(tenant.id), adjustment as real, server);
      forall u
        ensures u != tenant.id ==> AccountOf(client.keys, u) == old(AccountOf(client.keys, u))
      {
        KeysApart(u, tenant.id);
        KeysApart(tenant.id, u);
      }
      KeysApart(tenant.id, tenant.id);
    }
  }
}
