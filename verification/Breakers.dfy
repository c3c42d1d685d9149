/** The per-provider circuit breaker and the registry that creates breakers on
    first use (gateway/resilience/circuit_breaker.py). The classes update their
    fields in place as the source does; each method is proved against a function
    on `Breaker` values, and BreakerRuns.dfy proves what whole runs of those
    functions keep. */
module Breakers {
  import opened Prelude

  datatype Mode = Closed | Open | HalfOpen

  datatype Config = Config(
    failureThreshold: real,
    windowSize: nat,
    minCalls: int,
    resetTimeout: real,
    halfOpenMax: int)
  {
    /** Otherwise the failure rate of an empty window is computed: a division by zero. */
    predicate Usable() {
      windowSize >= 1 || minCalls >= 1
    }
  }

  /** A breaker's fields as one value. In `window`, true is a success. */
  datatype Breaker = Breaker(mode: Mode, window: seq<bool>, openedAt: real, halfOpenCalls: int)

  const FRESH := Breaker(Closed, [], 0.0, 0)

  function Failures(window: seq<bool>): (n: nat)
    ensures n <= |window|
  {
    if window == [] then 0
    else Failures(window[..|window| - 1]) + (if window[|window| - 1] then 0 else 1)
  }

  /** Appending to a deque of bounded length drops its oldest element when full. */
  function Push(window: seq<bool>, ok: bool, size: nat): seq<bool> {
    if |window| < size then window + [ok] else (window + [ok])[|window| + 1 - size..]
  }

  /** Enough calls, and a failure rate that has reached the threshold. The rate is compared
      without a division; RatioAtLeastScaled says that this is the comparison of the ratio. */
  predicate Tripped(c: Config, window: seq<bool>) {
    |window| >= c.minCalls && Failures(window) as real >= Scaled(c.failureThreshold, |window|)
  }

  /** Whether a call may proceed now, and the breaker afterwards. */
  function Admission(c: Config, b: Breaker, now: real): (Breaker, bool) {
    if b.mode == Open && now - b.openedAt < c.resetTimeout then
      (b, false)
    else if b.mode == Closed then
      (b, true)
    else
      var calls := if b.mode == Open then 0 else b.halfOpenCalls;
      var admitted := calls < c.halfOpenMax;
      (b.(mode := HalfOpen, halfOpenCalls := if admitted then calls + 1 else calls), admitted)
  }

  function OnSuccess(c: Config, b: Breaker): Breaker {
    if b.mode == HalfOpen then
      Breaker(Closed, [], b.openedAt, 0)
    else
      b.(window := Push(b.window, true, c.windowSize))
  }

  function OnFailure(c: Config, b: Breaker, now: real): Breaker
  {
    if b.mode == HalfOpen then
      Breaker(Open, b.window, now, 0)
    else
      var window := Push(b.window, false, c.windowSize);
      if Tripped(c, window) then Breaker(Open, window, now, 0) else b.(window := window)
  }

  function Report(c: Config, b: Breaker, ok: bool, now: real): Breaker {
    if ok then OnSuccess(c, b) else OnFailure(c, b, now)
  }

  /** `_transition`, `_to_open`, `_to_half_open` and `_to_closed` are private methods here too.
      The clock is read by the caller and passed in as `now`. */
  class CircuitBreaker {
    const config: Config
    var mode: Mode
    var window: seq<bool>
    var openedAt: real
    var halfOpenCalls: int

    ghost predicate Valid()
      reads this
    {
      config.Usable() && |window| <= config.windowSize
    }

    function View(): Breaker
      reads this
    {
      Breaker(mode, window, openedAt, halfOpenCalls)
    }

    constructor (config: Config)
      requires config.Usable()
      ensures Valid() && this.config == config && View() == FRESH
    {
      this.config := config;
      mode, window, openedAt, halfOpenCalls := Closed, [], 0.0, 0;
    }

    method Allow(now: real) returns (admitted: bool)
      requires Valid()
      modifies this
      ensures Valid()
      ensures (View(), admitted) == Admission(config, old(View()), now)
    {
      if mode == Open {
        if now - openedAt >= config.resetTimeout {
          ToHalfOpen();
        } else {
          return false;
        }
      }
      if mode == HalfOpen {
        if halfOpenCalls < config.halfOpenMax {
          halfOpenCalls := halfOpenCalls + 1;
          return true;
        }
        return false;
      }
      return true;
    }

    method RecordSuccess()
      requires Valid()
      modifies this
      ensures Valid() && View() == OnSuccess(config, old(View()))
    {
      if mode == HalfOpen {
        ToClosed();
      } else {
        window := Push(window, true, config.windowSize);
      }
    }

    method RecordFailure(now: real)
      requires Valid()
      modifies this
      ensures Valid() && View() == OnFailure(config, old(View()), now)
    {
      if mode == HalfOpen {
        ToOpen(now);
        return;
      }
      window := Push(window, false, config.windowSize);
      if |window| >= config.minCalls {
        RatioAtLeastScaled(Failures(window) as real, |window|, config.failureThreshold);
        var failureRate := Failures(window) as real / |window| as real;
        if failureRate >= config.failureThreshold {
          ToOpen(now);
        }
      }
    }

    method ToOpen(now: real)
      modifies this
      ensures View() == Breaker(Open, old(window), now, 0)
    {
      Transition(Open);
      openedAt := now;
      halfOpenCalls := 0;
    }

    method ToHalfOpen()
      modifies this
      ensures View() == Breaker(HalfOpen, old(window), old(openedAt), 0)
    {
      Transition(HalfOpen);
      halfOpenCalls := 0;
    }

    method ToClosed()
      modifies this
      ensures View() == Breaker(Closed, [], old(openedAt), 0)
    {
      Transition(Closed);
      window := [];
      halfOpenCalls := 0;
    }

    method Transition(newMode: Mode)
      modifies this
      ensures View() == old(View()).(mode := newMode)
    {
      if newMode != mode {
        mode := newMode;
      }
    }
  }

  /** A provider never seen before behaves as a fresh breaker. */
  function Lookup(breakers: map<string, Breaker>, name: string): Breaker {
    if name in breakers then breakers[name] else FRESH
  }

  class BreakerRegistry {
    const config: Config
    var breakers: map<string, CircuitBreaker>

    ghost predicate Valid()
      reads this, breakers.Values
    {
      && config.Usable()
      && (forall n <- breakers :: breakers[n].config == config && breakers[n].Valid())
      && (forall n, m | n in breakers && m in breakers && n != m :: breakers[n] != breakers[m])
    }

    ghost function View(): map<string, Breaker>
      reads this, breakers.Values
    {
      map n | n in breakers :: breakers[n].View()
    }

    constructor (config: Config)
      requires config.Usable()
      ensures Valid() && this.config == config && breakers == map[] && View() == map[]
    {
      this.config := config;
      breakers := map[];
    }

    method Get(name: string) returns (b: CircuitBreaker)
      requires Valid()
      modifies this
      ensures Valid()
      ensures name in breakers && b == breakers[name]
      ensures forall n <- old(breakers) :: n in breakers && breakers[n] == old(breakers[n])
      ensures fresh(breakers.Values - old(breakers.Values))
      ensures View() == old(View())[name := Lookup(old(View()), name)]
    {
      if name !in breakers {
        var created := new CircuitBreaker(config);
        breakers := breakers[name := created];
      }
      b := breakers[name];
    }
  }
}
